/** A run of the program is one event of the histories (internal/runner/worktree.go, runWorktree). */
module Replay {
  import opened Ledger
  import BlobStore
  import opened LedgerStore
  import opened LoopLaws
  import opened RunLaws
  import opened Worktree
  import opened History

  /** What one client and the hub hold in a world. */
  function SeenBy(w: World, c: ClientId): View {
    View(LocalOf(w, c), w.hub, w.disk, w.blobs)
  }

  lemma WorldFound(w: World, o: RunOptions)
    ensures CurrentOf(SeenBy(w, o.client)) == LedgerOf(w)
    ensures EnvIn(SeenBy(w, o.client), o) == RunEnv(w, o) && StartIn(SeenBy(w, o.client)) == RunStart(w, o)
  {
  }

  lemma NextViewed(w: World, o: RunOptions, paths: seq<Path>, gone: set<Hash>)
    ensures var ev := Run(o, paths, Finished(gone)); var f := RunLoop(w, ev);
            SeenBy(Next(w, ev), o.client) ==
            if o.dryRun then View(f.local, f.remote, w.disk, f.blobs)
            else View(f.local, f.remote, Saved(w.disk, NextLedger(LedgerOf(w), RunEnv(w, o).gen, f, o.client)),
                      f.blobs - gone)
  {
  }

  /**
   * What a completed run leaves is the world the history has for it; that event is legal if
   * the sidecar names it needs are unused, and after a complete collection the blobs are
   * exactly the ledger's.
   */
  lemma CompletedIsNext(
      w: World, after: View, o: RunOptions, removals: nat, collected: bool, paths: seq<Path>, gone: set<Hash>)
    requires Inv(w) && Distinct(paths) && Listing(RunStart(w, o), paths)
    requires Completed(SeenBy(w, o.client), after, o, removals, collected, paths, gone)
    ensures var ev := Run(o, paths, Finished(gone));
            && SeenBy(Next(w, ev), o.client) == after
            && (FreshSidecars(RunEnv(w, o), RunStart(w, o), paths) ==> Legal(w, ev))
            && (collected ==> after.blobs.Keys == BlobStore.Referenced(RunLoop(w, ev).files))
  {
    var ev := Run(o, paths, Finished(gone));
    WorldFound(w, o);
    NextViewed(w, o, paths, gone);
    LoopGrows(RunEnv(w, o), RunStart(w, o), paths);
    if collected { BlobStore.GCKeepsBases(RunLoop(w, ev).blobs, RunLoop(w, ev).files, gone); }
  }

  /** In a sound world the program's run either refuses and changes nothing or is the history's event. */
  method RunInWorld(site: Site, ghost w: World, o: RunOptions, removals: nat)
    returns (r: Outcome, collected: bool, ghost ev: Event)
    requires Inv(w) && site.Look() == SeenBy(w, o.client)
    modifies site, site.disk, site.hub
    ensures r.Refused? || r.Done? || r.Conflicted?
    ensures r.Refused? ==> site.Look() == SeenBy(w, o.client)
    ensures !r.Refused? ==> ev.Run? && ev.o == o && ev.stop.Finished? && site.Look() == SeenBy(Next(w, ev), o.client)
    ensures !r.Refused? && FreshSidecars(RunEnv(w, o), RunStart(w, o), ev.paths) ==> Legal(w, ev)
    ensures collected && !r.Refused? ==> site.hub.blobs.Keys == BlobStore.Referenced(RunLoop(w, ev).files)
  {
    ghost var paths, gone;
    WorldFound(w, o);
    r, collected, paths, gone := site.RunWorktree(o, removals);
    ev := Run(o, paths, Finished(gone));
    if !r.Refused? {
      CompletedIsNext(w, site.Look(), o, removals, collected, paths, gone);
    }
  }
}
