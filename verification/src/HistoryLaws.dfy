/** What holds after any history of edits and runs, complete or cut short. */
module HistoryLaws {
  import opened Options
  import opened Ledger
  import opened BlobStore
  import opened LedgerStore
  import opened Merge
  import opened Decision
  import opened LoopLaws
  import opened RunLaws
  import opened EditLaws
  import DryRunLaws
  import opened RestartLaws
  import opened StopLaws
  import opened Trails
  import opened Worktree
  import opened History

  ghost predicate Reachable(w: World) {
    exists start, evs :: Initial(start) && AllLegal(start, evs) && w == Play(start, evs)
  }

  lemma ReachableInv(w: World)
    requires Reachable(w)
    ensures Inv(w)
  {
    var start, evs :| Initial(start) && AllLegal(start, evs) && w == Play(start, evs);
    InitialInv(start);
    InvAlways(start, evs);
  }

  /** The ledger always loads, and its records stay disjoint and numbered within its generation. */
  lemma LedgerAlwaysGood(w: World)
    requires Reachable(w)
    ensures LoadOf(w.disk).Loaded?
    ensures var l := LoadOf(w.disk).ledger;
            && l.files.Keys !! l.tombstones.Keys
            && (forall p :: p in l.files ==> 1 <= l.files[p].gen <= l.generation)
            && (forall c :: c in l.clients ==> l.clients[c] <= l.generation)
  {
    ReachableInv(w);
  }

  /**
   * The base any run can fetch for a tracked path is there, and it is the version the hub held
   * after the last saved run of whichever client. OneClientLaws relates it to the running
   * client's own last version; with several clients it may be one that client never held.
   */
  lemma TrueAncestor(w: World, o: RunOptions, p: Path)
    requires Reachable(w) && p in LedgerOf(w).files
    ensures p in w.agreed
    ensures CellAt(RunEnv(w, o), RunStart(w, o), p).base == Some(w.agreed[p])
  {
    ReachableInv(w);
  }

  /** A saved run leaves client, hub and recorded agreement identical. */
  lemma AgreedIsShared(w: World, ev: Event)
    requires Reachable(w) && ev.Run? && Legal(w, ev) && !ev.o.dryRun && ev.stop.Finished?
    ensures var w' := Next(w, ev);
            w'.agreed == w'.hub && w'.agreed == LocalOf(w', ev.o.client) && AsRecorded(w'.agreed, LedgerOf(w').files)
  {
    ReachableInv(w);
    RunReady(w, ev);
    Convergence(RunEnv(w, ev.o), RunStart(w, ev.o), ev.paths);
    RunInv(w, ev);
  }

  /**
   * A saved run raises the generation by one and moves its own client's cursor there; the
   * other clients' cursors and trees stay.
   */
  lemma SavedRecords(w: World, ev: Event, c: ClientId)
    requires Reachable(w) && ev.Run? && Legal(w, ev) && !ev.o.dryRun && ev.stop.Finished?
    ensures var l, l' := LedgerOf(w), LedgerOf(Next(w, ev));
            && l'.generation == l.generation + 1
            && (if c in l'.clients then l'.clients[c] else 0)
               == (if c == ev.o.client then l.generation + 1 else if c in l.clients then l.clients[c] else 0)
    ensures c != ev.o.client ==> LocalOf(Next(w, ev), c) == LocalOf(w, c)
  {
    ReachableInv(w);
    FinishedWorld(w, ev);
    SaveAtomic(w.disk, NextLedger(LedgerOf(w), RunEnv(w, ev.o).gen, RunLoop(w, ev), ev.o.client));
  }

  /**
   * Many clients, any history: a run, complete, cut short or dry, takes a version off the hub
   * outside the tombstone guard only if that is the very version the deleting client held
   * when its last run was saved.
   */
  lemma DeletionJustified(w: World, ev: Event, p: Path)
    requires Reachable(w) && ev.Run? && Legal(w, ev)
    requires p in w.hub && p !in Next(w, ev).hub
    requires !Stale(CellAt(RunEnv(w, ev.o), RunStart(w, ev.o), p))
    ensures ev.o.client in w.views && Get(w.views[ev.o.client], p) == Some(w.hub[p])
    ensures p !in LocalOf(w, ev.o.client)
  {
    ReachableInv(w);
    HubIsLoops(w, ev);
    RunRemoved(w, ev, p);
    PlannedWasSeen(w, ev.o, p);
  }

  /** Saving and collecting blobs do not touch the hub's tree. */
  lemma HubIsLoops(w: World, ev: Event)
    requires ev.Run?
    ensures Next(w, ev).hub == RunLoop(w, ev).remote
  {
    HubIsFinal(w, ev.o, RunLoop(w, ev));
  }

  lemma HubIsFinal(w: World, o: RunOptions, f: State)
    ensures AfterLoop(w, o.client, f).hub == f.remote && AfterSave(w, o, f).hub == f.remote
  {
  }

  lemma RunRemoved(w: World, ev: Event, p: Path)
    requires Inv(w) && ev.Run? && Legal(w, ev)
    requires p in w.hub && p !in RunLoop(w, ev).remote
    ensures PlannedAt(RunEnv(w, ev.o), RunStart(w, ev.o), p) || Stale(CellAt(RunEnv(w, ev.o), RunStart(w, ev.o), p))
  {
    RunIsStopped(w, ev);
    if ev.o.dryRun {
      DryRunLaws.DryStopRemoved(RunEnv(w, ev.o), RunStart(w, ev.o), ev.paths, StopOf(ev).0, StopOf(ev).1, p);
    } else {
      RunReady(w, ev);
      StopRemoved(RunEnv(w, ev.o), RunStart(w, ev.o), ev.paths, StopOf(ev).0, StopOf(ev).1, p);
    }
  }

  /** How many paths a run decided, and how many file operations of the next it did. */
  function StopOf(ev: Event): (nat, nat)
    requires ev.Run?
  {
    if ev.stop.InLoop? then (ev.stop.decided, ev.stop.operations) else (|ev.paths|, 0)
  }

  lemma RunIsStopped(w: World, ev: Event)
    requires ev.Run?
    ensures RunLoop(w, ev) ==
            Interrupted(RunEnv(w, ev.o), RunStart(w, ev.o), ev.paths, StopOf(ev).0, StopOf(ev).1)
  {
  }

  lemma PlannedWasSeen(w: World, o: RunOptions, p: Path)
    requires Inv(w) && PlannedAt(RunEnv(w, o), RunStart(w, o), p)
    ensures p in w.hub && o.client in w.views && Get(w.views[o.client], p) == Some(w.hub[p])
    ensures p !in LocalOf(w, o.client)
  {
    assert Seen(w, LedgerOf(w), o.client, p);
  }

  /** The client's tree when its last run was saved. */
  function ViewOf(w: World, c: ClientId): Tree {
    if c in w.views then w.views[c] else map[]
  }

  /** What a client that has not touched the path since its last saved run leaves on the hub. */
  ghost function LeftByUntouched(env: Env, c: Cell): Option<Content> {
    if Stale(c) then None
    else if c.ours.None? || c.a == Known(c) then c.theirs
    else if c.theirs.None? || c.b == Known(c) then c.ours
    else if c.ours == c.theirs || MergedBy(env, c) == None then c.theirs
    else MergedBy(env, c)
  }

  /** Without a stale tombstone: nothing of its own, the hub's or the ledger's version, or no other merge. */
  ghost predicate UntouchedYields(env: Env, c: Cell) {
    if Stale(c) then c.theirs.None?
    else
      || c.ours.None? || c.ours == c.theirs || c.a == Known(c)
      || (c.theirs.Some? && c.b != Known(c) && (MergedBy(env, c) == None || MergedBy(env, c) == c.theirs))
  }

  lemma UntouchedHere(env: Env, c: Cell)
    requires Faithful(c) && (c.ours.None? && c.entry.Some? ==> c.entry.value.gen > env.cursor)
    ensures After(env, c).remote == LeftByUntouched(env, c)
    ensures LeftByUntouched(env, c) == c.theirs <==> UntouchedYields(env, c)
  {
    ChoiceFits(env, c);
  }

  lemma UntouchedRun(w: World, ev: Event, p: Path)
    requires Inv(w) && ev.Run? && Legal(w, ev) && !ev.o.dryRun && ev.stop.Finished? && p in ev.paths
    ensures Get(Next(w, ev).hub, p) == After(RunEnv(w, ev.o), CellAt(RunEnv(w, ev.o), RunStart(w, ev.o), p)).remote
  {
    var env, s := RunEnv(w, ev.o), RunStart(w, ev.o);
    HubIsLoops(w, ev);
    RunReady(w, ev);
    LoopHere(env, s, ev.paths, p);
    assert SlotAt(Loop(env, s, ev.paths), p).remote == Get(Loop(env, s, ev.paths).remote, p);
  }

  /**
   * A client that has not touched a path since its last saved run leaves the hub's version of
   * it alone exactly when it lacks the path, has the hub's or the ledger's version, or meets a
   * hub edited past the ledger with which no clean merge is made or the merge is the hub's own
   * text; over a stale tombstone, exactly when the hub has none. Otherwise its old copy, or a
   * merge with it, replaces the hub's.
   */
  lemma UntouchedClientKeepsHubIff(w: World, ev: Event, p: Path)
    requires Reachable(w) && ev.Run? && Legal(w, ev) && !ev.o.dryRun && ev.stop.Finished? && p in ev.paths
    requires Get(LocalOf(w, ev.o.client), p) == Get(ViewOf(w, ev.o.client), p)
    ensures var env := RunEnv(w, ev.o); var c := CellAt(env, RunStart(w, ev.o), p);
            && Get(Next(w, ev).hub, p) == LeftByUntouched(env, c)
            && (Get(Next(w, ev).hub, p) == Get(w.hub, p) <==> UntouchedYields(env, c))
  {
    ReachableInv(w);
    RunReady(w, ev);
    ReadyCell(RunEnv(w, ev.o), RunStart(w, ev.o), ev.paths, p);
    if p in LedgerOf(w).files { UnseenIsNewer(w, ev.o, p); }
    UntouchedRun(w, ev, p);
    UntouchedHere(RunEnv(w, ev.o), CellAt(RunEnv(w, ev.o), RunStart(w, ev.o), p));
  }

  /** A client that never had the current version has a cursor below it. */
  lemma UnseenIsNewer(w: World, o: RunOptions, p: Path)
    requires Inv(w) && p in LedgerOf(w).files
    ensures (o.client in w.views ==> p !in w.views[o.client]) ==> LedgerOf(w).files[p].gen > RunEnv(w, o).cursor
  {
    assert Seen(w, LedgerOf(w), o.client, p);
  }

  // --- conflicts ---

  /** Both sides left the base, for different versions that have no clean merge over it. */
  ghost predicate Genuine(
      mine: Option<Content>, theirs: Option<Content>, base: Option<Content>, noMerge: bool) {
    && mine != theirs && mine != base && theirs != base
    && !(&& !noMerge && base.Some? && mine.Some? && theirs.Some?
         && IsText(mine.value) && IsText(theirs.value)
         && MergeOf(base.value, mine.value, theirs.value).clean)
  }

  lemma GenuineHere(env: Env, c: Cell)
    requires Faithful(c)
    ensures TrueConflict(env, c) <==> Genuine(c.ours, c.theirs, c.base, env.noMerge)
  {
  }

  lemma AgreedIsBase(w: World, o: RunOptions, p: Path)
    requires Inv(w)
    ensures CellAt(RunEnv(w, o), RunStart(w, o), p).base == Get(w.agreed, p)
  {
  }

  /** In any history a run reports exactly the paths in genuine conflict over the last agreed tree. */
  lemma ReportedIff(w: World, ev: Event, p: Path)
    requires Reachable(w) && ev.Run? && Legal(w, ev) && !ev.o.dryRun && !ev.stop.InLoop?
    ensures p in RunLoop(w, ev).conflicts <==>
            Genuine(Get(LocalOf(w, ev.o.client), p), Get(w.hub, p), Get(w.agreed, p), ev.o.noMerge)
  {
    ReachableInv(w);
    ReportedHere(w, ev, p);
  }

  lemma ReportedHere(w: World, ev: Event, p: Path)
    requires Inv(w) && ev.Run? && Legal(w, ev) && !ev.o.dryRun && !ev.stop.InLoop?
    ensures p in RunLoop(w, ev).conflicts <==>
            Genuine(Get(LocalOf(w, ev.o.client), p), Get(w.hub, p), Get(w.agreed, p), ev.o.noMerge)
  {
    var env, s := RunEnv(w, ev.o), RunStart(w, ev.o);
    RunReady(w, ev);
    ReadyCell(env, s, ev.paths, p);
    ConflictsReported(env, s, ev.paths, p);
    GenuineHere(env, CellAt(env, s, p));
    AgreedIsBase(w, ev.o, p);
  }

  /**
   * A client that has not touched a path is reported in conflict on it exactly when its old
   * copy and the hub's version both differ from what was last agreed and do not merge: another
   * client's run was saved since its own, and the hub was edited after that.
   */
  lemma UntouchedReportedIff(w: World, ev: Event, p: Path)
    requires Reachable(w) && ev.Run? && Legal(w, ev) && !ev.o.dryRun && !ev.stop.InLoop?
    requires Get(LocalOf(w, ev.o.client), p) == Get(ViewOf(w, ev.o.client), p)
    ensures var view, agreed, theirs := Get(ViewOf(w, ev.o.client), p), Get(w.agreed, p), Get(w.hub, p);
            && (p in RunLoop(w, ev).conflicts <==> Genuine(view, theirs, agreed, ev.o.noMerge))
            && (p in RunLoop(w, ev).conflicts ==> view != agreed && theirs != agreed)
  {
    ReportedIff(w, ev, p);
  }

  /** The same client run twice with nothing edited between: the second run changes nothing. */
  lemma SecondRunIdle(w: World, ev: Event, again: Event)
    requires Reachable(w) && ev.Run? && Legal(w, ev) && !ev.o.dryRun && ev.stop.Finished?
    requires again.Run? && Legal(Next(w, ev), again) && !again.o.dryRun && again.stop.Finished?
    requires again.o.client == ev.o.client
    ensures var w1, w2 := Next(w, ev), Next(Next(w, ev), again);
            && w2.locals == w1.locals && w2.hub == w1.hub
            && LedgerOf(w2).files == LedgerOf(w1).files && LedgerOf(w2).tombstones == LedgerOf(w1).tombstones
            && RunLoop(w1, again).conflicts == []
            && Planned(RunEnv(w1, again.o), RunStart(w1, again.o), again.paths) == {}
  {
    var w1 := Next(w, ev);
    ReachableInv(w);
    RunInv(w, ev);
    AfterRunConverged(w, ev);
    Fixpoint(RunEnv(w1, again.o), RunStart(w1, again.o), again.paths);
    IdleRun(w1, again);
  }

  /** After a finished run, what the same client's next run starts from is converged. */
  lemma AfterRunConverged(w: World, ev: Event)
    requires Inv(w) && ev.Run? && Legal(w, ev) && !ev.o.dryRun && ev.stop.Finished?
    ensures forall o: RunOptions :: o.client == ev.o.client ==>
              InSync(RunStart(Next(w, ev), o)) && Disjoint(RunStart(Next(w, ev), o))
    ensures ev.o.client in Next(w, ev).locals
  {
    RunReady(w, ev);
    Convergence(RunEnv(w, ev.o), RunStart(w, ev.o), ev.paths);
    FinishedWorld(w, ev);
  }

  /** A finished run whose loop changed nothing leaves the world's trees and records alone. */
  lemma IdleRun(w: World, ev: Event)
    requires Inv(w) && ev.Run? && !ev.o.dryRun && ev.stop.Finished? && ev.o.client in w.locals
    requires RunLoop(w, ev) == RunStart(w, ev.o)
    ensures var w2 := Next(w, ev);
            && w2.locals == w.locals && w2.hub == w.hub
            && LedgerOf(w2).files == LedgerOf(w).files && LedgerOf(w2).tombstones == LedgerOf(w).tombstones
  {
    FinishedWorld(w, ev);
    assert w.locals[ev.o.client := w.locals[ev.o.client]] == w.locals;
  }

  /** After a complete collection the store holds the ledger's versions and nothing else. */
  lemma CollectedExactly(w: World, ev: Event)
    requires Reachable(w) && ev.Run? && Legal(w, ev) && !ev.o.dryRun && ev.stop.Finished?
    requires ev.stop.collected == RunLoop(w, ev).blobs.Keys - Referenced(RunLoop(w, ev).files)
    ensures Next(w, ev).blobs.Keys == Referenced(LedgerOf(Next(w, ev)).files)
  {
    ReachableInv(w);
    RunReady(w, ev);
    var env, s, f := RunEnv(w, ev.o), RunStart(w, ev.o), RunLoop(w, ev);
    Convergence(env, s, ev.paths);
    SaveAtomic(w.disk, NextLedger(LedgerOf(w), env.gen, f, ev.o.client));
    GCKeepsBases(f.blobs, f.files, ev.stop.collected);
  }

  function AttemptOf(w: World, ev: Event, operations: nat): Attempt
    requires ev.Run?
  {
    Attempt(NextLedger(LedgerOf(w), RunEnv(w, ev.o).gen, RunLoop(w, ev), ev.o.client), operations)
  }

  /** A run cut short before its ledger was committed: in the loop or in the save. */
  ghost predicate CutShort(w: World, ev: Event) {
    && ev.Run? && Legal(w, ev) && !ev.o.dryRun
    && match ev.stop
       case InLoop(_, _) => true
       case InSave(n) => !Commits(w.disk, AttemptOf(w, ev, n))
       case Finished(_) => false
  }

  /** It leaves its loop's replicas and blobs, and a ledger that loads as before. */
  lemma CutShortWorld(w: World, ev: Event)
    requires Inv(w) && CutShort(w, ev)
    ensures var w1, f := Next(w, ev), RunLoop(w, ev);
            && LoadOf(w1.disk) == LoadOf(w.disk) && w1.blobs == f.blobs
            && w1.hub == f.remote && LocalOf(w1, ev.o.client) == f.local
  {
    var f := RunLoop(w, ev);
    if ev.stop.InSave? {
      var d := AfterAttempt(w.disk, AttemptOf(w, ev, ev.stop.operations));
      AttemptAtomic(w.disk, AttemptOf(w, ev, ev.stop.operations));
      LeftBehind(w, ev.o, f, d);
      assert Next(w, ev) == AfterLoop(w, ev.o.client, f).(disk := d);
    } else {
      LeftBehind(w, ev.o, f, w.disk);
      assert Next(w, ev) == AfterLoop(w, ev.o.client, f).(disk := w.disk);
    }
  }

  lemma LeftBehind(w: World, o: RunOptions, f: State, d: Disk)
    ensures var w1 := AfterLoop(w, o.client, f).(disk := d);
            w1.disk == d && w1.blobs == f.blobs && w1.hub == f.remote && LocalOf(w1, o.client) == f.local
  {
  }

  /** The same client's next run, at whatever time: what it starts from is what the stopped one left. */
  ghost predicate SameJob(o: RunOptions, o': RunOptions) {
    o'.client == o.client && o'.dryRun == o.dryRun && o'.noMerge == o.noMerge
  }

  lemma CutShortLeaves(w: World, ev: Event, o: RunOptions)
    requires Inv(w) && CutShort(w, ev) && SameJob(ev.o, o)
    ensures var w1, env, s := Next(w, ev), RunEnv(w, ev.o), RunStart(w, ev.o);
            && RunStart(w1, o) == Left(env, s, ev.paths, StopOf(ev).0, StopOf(ev).1)
            && RunEnv(w1, o) == Again(env, RunStart(w1, o), o.stamp)
  {
    CutShortWorld(w, ev);
    assert LedgerOf(Next(w, ev)) == LedgerOf(w);
  }

  /** A path on one client, the hub and the ledger. */
  function SlotIn(w: World, c: ClientId, p: Path): Slot {
    Slot(Get(LocalOf(w, c), p), Get(w.hub, p), Get(LedgerOf(w).files, p), Get(LedgerOf(w).tombstones, p))
  }

  lemma FinishedSlot(w: World, ev: Event, p: Path)
    requires Inv(w) && ev.Run? && !ev.o.dryRun && ev.stop.Finished?
    ensures SlotIn(Next(w, ev), ev.o.client, p) == SlotAt(Loop(RunEnv(w, ev.o), RunStart(w, ev.o), ev.paths), p)
  {
    FinishedWorld(w, ev);
  }

  /** The next run is one that the restart laws speak of. */
  lemma CutShortResumes(w: World, ev: Event, again: Event)
    requires Inv(w) && CutShort(w, ev) && again.Run? && SameJob(ev.o, again.o) && Legal(Next(w, ev), again)
    ensures var env, s := RunEnv(w, ev.o), RunStart(w, ev.o);
            && Runnable(env, s, ev.paths)
            && Resumes(env, s, Left(env, s, ev.paths, StopOf(ev).0, StopOf(ev).1), again.o.stamp, again.paths)
  {
    var env, s := RunEnv(w, ev.o), RunStart(w, ev.o);
    RunInv(w, ev);
    RunReady(w, ev);
    RunReady(Next(w, ev), again);
    CutShortLeaves(w, ev, again.o);
    LeftUnsaved(env, s, ev.paths, StopOf(ev).0, StopOf(ev).1);
  }

  /** The stopped run was between the two writes of p's merge. */
  ghost predicate CutInMerge(w: World, ev: Event, p: Path)
    requires ev.Run?
  {
    StoppedInMerge(RunEnv(w, ev.o), RunStart(w, ev.o), ev.paths, StopOf(ev).0, StopOf(ev).1, p)
  }

  /** Merging what it had written with the hub's version over the same base gives that again. */
  ghost predicate CutMergeHolds(w: World, ev: Event, p: Path)
    requires ev.Run? && CutInMerge(w, ev, p)
  {
    var c := CellAt(RunEnv(w, ev.o), RunStart(w, ev.o), p);
    MergeHolds(c, Choose(RunEnv(w, ev.o), c).content)
  }

  /**
   * In any history, a run cut short before its commit, after any file operation, and then run
   * in full at any time: a path ends with the contents and ledger hash of one uninterrupted
   * run exactly when the stop was not between the two writes of its merge, or that merge
   * holds when it is made again.
   */
  lemma CutShortThenFull(w: World, ev: Event, again: Event, collected: set<Hash>, p: Path)
    requires Reachable(w) && CutShort(w, ev) && p in ev.paths
    requires again.Run? && SameJob(ev.o, again.o) && again.stop.Finished? && Legal(Next(w, ev), again)
    requires Legal(w, Run(ev.o, ev.paths, Finished(collected)))
    ensures var end, want := Next(Next(w, ev), again), Next(w, Run(ev.o, ev.paths, Finished(collected)));
            SameOutcome(SlotIn(end, ev.o.client, p), SlotIn(want, ev.o.client, p)) <==>
            (CutInMerge(w, ev, p) ==> CutMergeHolds(w, ev, p))
  {
    ReachableInv(w);
    RunInv(w, ev);
    var env, s := RunEnv(w, ev.o), RunStart(w, ev.o);
    CutShortResumes(w, ev, again);
    CutShortLeaves(w, ev, again.o);
    FinishedSlot(w, Run(ev.o, ev.paths, Finished(collected)), p);
    FinishedSlot(Next(w, ev), again, p);
    StopRestart(env, s, ev.paths, StopOf(ev).0, StopOf(ev).1, again.o.stamp, again.paths, p);
  }

  /** If it did not stop inside a merge or a setting aside, and has the same stamp, the very trees are the same. */
  lemma CutShortSameTrees(w: World, ev: Event, again: Event, collected: set<Hash>)
    requires Reachable(w) && CutShort(w, ev)
    requires NotHalf(RunEnv(w, ev.o), RunStart(w, ev.o), ev.paths, StopOf(ev).0, StopOf(ev).1)
    requires again.Run? && SameJob(ev.o, again.o) && again.o.stamp == ev.o.stamp
    requires again.stop.Finished? && Legal(Next(w, ev), again)
    requires Legal(w, Run(ev.o, ev.paths, Finished(collected)))
    ensures var end, want := Next(Next(w, ev), again), Next(w, Run(ev.o, ev.paths, Finished(collected)));
            && end.hub == want.hub && LocalOf(end, ev.o.client) == LocalOf(want, ev.o.client)
            && LedgerOf(end).files.Keys == LedgerOf(want).files.Keys
            && forall p :: p in LedgerOf(want).files ==> LedgerOf(end).files[p].hash == LedgerOf(want).files[p].hash
  {
    ReachableInv(w);
    RunInv(w, ev);
    var env, s := RunEnv(w, ev.o), RunStart(w, ev.o);
    CutShortResumes(w, ev, again);
    CutShortLeaves(w, ev, again.o);
    LeftUnsaved(env, s, ev.paths, StopOf(ev).0, StopOf(ev).1);
    StopIsBetween(env, s, ev.paths, StopOf(ev).0, StopOf(ev).1);
    var n: nat :| StoppedAfter(env, s, ev.paths, n, Left(env, s, ev.paths, StopOf(ev).0, StopOf(ev).1));
    SameStampRestart(env, s, ev.paths, n, RunStart(Next(w, ev), again.o), again.paths);
    FinishedWorld(w, Run(ev.o, ev.paths, Finished(collected)));
    FinishedWorld(Next(w, ev), again);
  }

  lemma FinishedWorld(w: World, ev: Event)
    requires Inv(w) && ev.Run? && !ev.o.dryRun && ev.stop.Finished?
    ensures var f := RunLoop(w, ev);
            && Next(w, ev).hub == f.remote && LocalOf(Next(w, ev), ev.o.client) == f.local
            && LedgerOf(Next(w, ev)).files == f.files && LedgerOf(Next(w, ev)).tombstones == f.tombs
            && Next(w, ev).locals == w.locals[ev.o.client := f.local]
  {
    HubIsLoops(w, ev);
    SaveAtomic(w.disk, NextLedger(LedgerOf(w), RunEnv(w, ev.o).gen, RunLoop(w, ev), ev.o.client));
  }
}
