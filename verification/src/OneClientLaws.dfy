/** Histories in which only one client ever runs: three-way sync as documented, but for the tombstone guard. */
module OneClientLaws {
  import opened Options
  import opened Ledger
  import opened LedgerStore
  import opened Decision
  import opened LoopLaws
  import opened RunLaws
  import opened ChangeLaws
  import opened Worktree
  import opened History
  import opened HistoryLaws

  ghost predicate OnlyClient(evs: seq<Event>, c: ClientId) {
    forall i :: 0 <= i < |evs| && evs[i].Run? ==> evs[i].o.client == c
  }

  ghost predicate ReachableAlone(w: World, c: ClientId) {
    exists start, evs :: Initial(start) && AllLegal(start, evs) && OnlyClient(evs, c) && w == Play(start, evs)
  }

  /** The last agreement is the client's own, and its cursor covers every entry. */
  ghost predicate Alone(w: World, c: ClientId) {
    w.agreed == ViewOf(w, c) && CursorOf(LedgerOf(w), c) == LedgerOf(w).generation
  }

  lemma SavedAlone(w: World, ev: Event)
    requires Inv(w) && ev.Run? && Legal(w, ev) && !ev.o.dryRun && !ev.stop.InLoop?
    ensures Alone(AfterSave(w, ev.o, RunLoop(w, ev)), ev.o.client)
  {
    RunReady(w, ev);
    Convergence(RunEnv(w, ev.o), RunStart(w, ev.o), ev.paths);
    SaveAtomic(w.disk, NextLedger(LedgerOf(w), RunEnv(w, ev.o).gen, RunLoop(w, ev), ev.o.client));
  }

  lemma RunAlone(w: World, ev: Event)
    requires Inv(w) && ev.Run? && Legal(w, ev) && Alone(w, ev.o.client)
    ensures Alone(Next(w, ev), ev.o.client)
  {
    if !ev.o.dryRun && !ev.stop.InLoop? {
      SavedAlone(w, ev);
      if ev.stop.InSave? {
        AttemptAtomic(w.disk, AttemptOf(w, ev, ev.stop.operations));
      }
    }
  }

  lemma NextAlone(w: World, ev: Event, c: ClientId)
    requires Inv(w) && Legal(w, ev) && Alone(w, c) && (ev.Run? ==> ev.o.client == c)
    ensures Alone(Next(w, ev), c)
  {
    if ev.Run? { RunAlone(w, ev); }
  }

  lemma {:induction false} AloneAlways(w: World, evs: seq<Event>, c: ClientId)
    requires Inv(w) && AllLegal(w, evs) && OnlyClient(evs, c) && Alone(w, c)
    ensures Alone(Play(w, evs), c)
    decreases |evs|
  {
    if evs != [] {
      NextInv(w, evs[0]);
      NextAlone(w, evs[0], c);
      AloneAlways(Next(w, evs[0]), evs[1..], c);
    }
  }

  lemma ReachedAlone(w: World, c: ClientId)
    requires ReachableAlone(w, c)
    ensures Inv(w) && Alone(w, c)
  {
    var start, evs :| Initial(start) && AllLegal(start, evs) && OnlyClient(evs, c) && w == Play(start, evs);
    InitialInv(start);
    AloneAlways(start, evs, c);
    InvAlways(start, evs);
  }

  /** The base is the very version the client held when its last run was saved. */
  lemma OwnAncestor(w: World, o: RunOptions, p: Path)
    requires ReachableAlone(w, o.client) && p in LedgerOf(w).files
    ensures p in ViewOf(w, o.client)
    ensures CellAt(RunEnv(w, o), RunStart(w, o), p).base == Get(ViewOf(w, o.client), p)
  {
    ReachedAlone(w, o.client);
  }

  /** Both replicas end with x at the path. */
  ghost predicate BothEnd(w: World, c: ClientId, p: Path, x: Option<Content>) {
    Get(LocalOf(w, c), p) == x && Get(w.hub, p) == x
  }

  /**
   * A path not touched locally since the client's last saved run ends on both replicas as the
   * hub has it, one not touched on the hub as the client has it, exactly when no stale
   * tombstone covers it.
   */
  lemma UnchangedSideGivesWay(w: World, ev: Event, p: Path)
    requires ev.Run? && ReachableAlone(w, ev.o.client) && Legal(w, ev)
    requires !ev.o.dryRun && ev.stop.Finished? && p in ev.paths
    ensures var c := ev.o.client; var view, mine, theirs := Get(ViewOf(w, c), p), Get(LocalOf(w, c), p), Get(w.hub, p);
            var stale := Stale(CellAt(RunEnv(w, ev.o), RunStart(w, ev.o), p));
            && (mine == view ==> (BothEnd(Next(w, ev), c, p, theirs) <==> !stale))
            && (theirs == view ==> (BothEnd(Next(w, ev), c, p, mine) <==> !stale))
  {
    var env, s := RunEnv(w, ev.o), RunStart(w, ev.o);
    ReachedAlone(w, ev.o.client);
    RunReady(w, ev);
    EndsSettled(w, ev, p);
    LoopHere(env, s, ev.paths, p);
    if Get(s.local, p) == Get(w.agreed, p) { HubSide(env, CellAt(env, s, p)); }
    if Get(s.remote, p) == Get(w.agreed, p) { LocalSide(env, CellAt(env, s, p)); }
  }

  lemma EndsSettled(w: World, ev: Event, p: Path)
    requires Inv(w) && ev.Run? && Legal(w, ev) && !ev.o.dryRun && ev.stop.Finished? && p in ev.paths
    ensures var x := After(RunEnv(w, ev.o), CellAt(RunEnv(w, ev.o), RunStart(w, ev.o), p)).local;
            BothEnd(Next(w, ev), ev.o.client, p, x)
  {
    var env, s := RunEnv(w, ev.o), RunStart(w, ev.o);
    RunReady(w, ev);
    FinishedWorld(w, ev);
    Convergence(env, s, ev.paths);
    LoopHere(env, s, ev.paths, p);
    assert SlotAt(RunLoop(w, ev), p).local == Get(RunLoop(w, ev).local, p);
  }

  /** With one client, a run reports exactly the paths edited on both sides since then that have no clean merge. */
  lemma OnlyGenuineConflicts(w: World, ev: Event, p: Path)
    requires ev.Run? && ReachableAlone(w, ev.o.client) && Legal(w, ev) && !ev.o.dryRun && !ev.stop.InLoop?
    ensures var c := ev.o.client;
            p in RunLoop(w, ev).conflicts <==>
            Genuine(Get(LocalOf(w, c), p), Get(w.hub, p), Get(ViewOf(w, c), p), ev.o.noMerge)
  {
    ReachedAlone(w, ev.o.client);
    ReportedHere(w, ev, p);
  }
}
