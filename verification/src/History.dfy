/**
 * Histories of one hub and any number of clients: edits on every side, runs that complete,
 * and runs that stop between any two file operations of the loop, in the save or in blob
 * collection. A file operation that fails ends a run as a stop before it does.
 */
module History {
  import opened Options
  import opened Ledger
  import opened BlobStore
  import opened LedgerStore
  import opened Decision
  import opened Trails
  import opened LoopLaws
  import opened RunLaws
  import opened EditLaws
  import DryRunLaws
  import opened Worktree

  /**
   * views and agreed record history for the statements below; no decision reads them.
   * views[c] is client c's tree when its last run was saved, agreed the hub's tree after
   * the last saved run of anyone.
   */
  datatype World = World(
    locals: map<ClientId, Tree>, hub: Tree, blobs: Blobs, disk: Disk,
    views: map<ClientId, Tree>, agreed: Tree)

  /**
   * Where a run ends: after some paths and some file operations of the next one, inside the
   * save, or complete with some blobs collected.
   */
  datatype Stop =
    | InLoop(decided: nat, operations: nat)
    | InSave(operations: nat)
    | Finished(collected: set<Hash>)

  datatype Event =
    | EditLocal(client: ClientId, path: Path, content: Option<Content>)
    | EditHub(path: Path, content: Option<Content>)
    | Run(o: RunOptions, paths: seq<Path>, stop: Stop)

  function LedgerOf(w: World): Ledger {
    match LoadOf(w.disk)
    case Loaded(l) => l
    case Unreadable => EMPTY
  }

  function LocalOf(w: World, c: ClientId): Tree {
    if c in w.locals then w.locals[c] else map[]
  }

  function RunEnv(w: World, o: RunOptions): Env {
    EnvOf(LedgerOf(w), LocalOf(w, o.client), w.hub, o)
  }

  function RunStart(w: World, o: RunOptions): State {
    StartOf(LedgerOf(w), LocalOf(w, o.client), w.hub, w.blobs)
  }

  /** The run's loop as far as it got. */
  function RunLoop(w: World, ev: Event): State
    requires ev.Run?
  {
    var env, s := RunEnv(w, ev.o), RunStart(w, ev.o);
    if ev.stop.InLoop? then Interrupted(env, s, ev.paths, ev.stop.decided, ev.stop.operations)
    else Loop(env, s, ev.paths)
  }

  function AfterLoop(w: World, c: ClientId, f: State): World {
    w.(locals := w.locals[c := f.local], hub := f.remote, blobs := f.blobs)
  }

  /** The world once the run's new ledger is on disk. */
  function AfterSave(w: World, o: RunOptions, f: State): World {
    var l := NextLedger(LedgerOf(w), RunEnv(w, o).gen, f, o.client);
    AfterLoop(w, o.client, f).(disk := Saved(w.disk, l), views := w.views[o.client := f.local], agreed := f.remote)
  }

  function Next(w: World, ev: Event): World {
    match ev
    case EditLocal(c, p, content) => w.(locals := w.locals[c := Put(LocalOf(w, c), p, content)])
    case EditHub(p, content) => w.(hub := Put(w.hub, p, content))
    case Run(o, paths, stop) =>
      var f := RunLoop(w, ev);
      if o.dryRun then AfterLoop(w, o.client, f)
      else match stop
        case InLoop(_, _) => AfterLoop(w, o.client, f)
        case InSave(n) =>
          var at := Attempt(NextLedger(LedgerOf(w), RunEnv(w, o).gen, f, o.client), n);
          if Commits(w.disk, at) then AfterSave(w, o, f)
          else AfterLoop(w, o.client, f).(disk := AfterAttempt(w.disk, at))
        case Finished(gone) => AfterSave(w, o, f).(blobs := f.blobs - gone)
  }

  /** A run lists the union of the maps, finds fresh sidecar names and collects only garbage. */
  ghost predicate Legal(w: World, ev: Event) {
    match ev
    case EditLocal(_, _, _) => true
    case EditHub(_, _) => true
    case Run(o, paths, stop) =>
      && Distinct(paths) && Listing(RunStart(w, o), paths)
      && FreshSidecars(RunEnv(w, o), RunStart(w, o), paths)
      && (stop.Finished? ==>
            stop.collected <= RunLoop(w, ev).blobs.Keys - Referenced(RunLoop(w, ev).files))
  }

  function Play(w: World, evs: seq<Event>): World
    decreases |evs|
  {
    if evs == [] then w else Play(Next(w, evs[0]), evs[1..])
  }

  ghost predicate AllLegal(w: World, evs: seq<Event>)
    decreases |evs|
  {
    evs == [] || (Legal(w, evs[0]) && AllLegal(Next(w, evs[0]), evs[1..]))
  }

  /** A hub no one has synced with yet, holding whatever files it holds. */
  predicate Initial(w: World) {
    w.disk == map[] && w.blobs == map[] && w.views == map[] && w.agreed == map[]
  }

  // --- the invariant ---

  ghost predicate Numbered(l: Ledger) {
    && l.files.Keys !! l.tombstones.Keys
    && 0 <= l.generation
    && (forall p :: p in l.files ==> 1 <= l.files[p].gen <= l.generation)
    && (forall p :: p in l.tombstones ==> 1 <= l.tombstones[p].gen <= l.generation)
    && (forall c :: c in l.clients ==> 0 <= l.clients[c] <= l.generation)
  }

  /** A client whose cursor covers an entry had exactly that version when last saved. */
  ghost predicate Seen(w: World, l: Ledger, c: ClientId, p: Path) {
    p in l.files && l.files[p].gen <= CursorOf(l, c) ==>
      c in w.views && p in w.views[c] && l.files[p].hash == Sum(w.views[c][p])
  }

  ghost predicate Inv(w: World) {
    && Sound(w.disk)
    && Numbered(LedgerOf(w))
    && Covers(w.blobs, LedgerOf(w).files)
    && AsRecorded(w.agreed, LedgerOf(w).files)
    && forall c, p :: Seen(w, LedgerOf(w), c, p)
  }

  lemma InitialInv(w: World)
    requires Initial(w)
    ensures Inv(w)
  {
  }

  /** What a saved entry or tombstone is: the one from before, or one of this generation. */
  lemma AfterGens(env: Env, c: Cell)
    requires Faithful(c)
    ensures var t := After(env, c);
            && (t.entry.Some? ==> t.entry == c.entry || t.entry.value.gen == env.gen)
            && (t.tomb.Some? ==> t.tomb == c.tomb || t.tomb.value.gen == env.gen)
  {
    ChoiceFits(env, c);
  }

  lemma LoopGens(env: Env, s: State, paths: seq<Path>, p: Path)
    requires Ready(env, s, paths)
    ensures var f := Loop(env, s, paths);
            && (p in f.files ==> Get(s.files, p) == Some(f.files[p]) || f.files[p].gen == env.gen)
            && (p in f.tombs ==> Get(s.tombs, p) == Some(f.tombs[p]) || f.tombs[p].gen == env.gen)
  {
    var f := Loop(env, s, paths);
    LoopSlot(env, s, paths, p);
    assert SlotAt(f, p) == FinalSlot(env, s, paths, p);
    assert Get(f.files, p) == SlotAt(f, p).entry && Get(f.tombs, p) == SlotAt(f, p).tomb;
    if p in paths {
      ReadyCell(env, s, paths, p);
      AfterGens(env, CellAt(env, s, p));
    }
  }

  lemma RunReady(w: World, ev: Event)
    requires Inv(w) && ev.Run? && Legal(w, ev) && !ev.o.dryRun
    ensures Runnable(RunEnv(w, ev.o), RunStart(w, ev.o), ev.paths)
  {
  }

  /** The ledger a complete loop hands to Save keeps every numbering rule. */
  lemma SavedNumbered(w: World, ev: Event)
    requires Inv(w) && ev.Run? && Legal(w, ev) && !ev.o.dryRun && !ev.stop.InLoop?
    ensures Numbered(NextLedger(LedgerOf(w), RunEnv(w, ev.o).gen, RunLoop(w, ev), ev.o.client))
  {
    var env, s := RunEnv(w, ev.o), RunStart(w, ev.o);
    RunReady(w, ev);
    Convergence(env, s, ev.paths);
    forall p ensures var f := RunLoop(w, ev);
                     && (p in f.files ==> 1 <= f.files[p].gen <= env.gen)
                     && (p in f.tombs ==> 1 <= f.tombs[p].gen <= env.gen)
    {
      LoopGens(env, s, ev.paths, p);
    }
  }

  lemma SavedSeen(w: World, ev: Event, c: ClientId, p: Path)
    requires Inv(w) && ev.Run? && Legal(w, ev) && !ev.o.dryRun && !ev.stop.InLoop?
    ensures var f := RunLoop(w, ev);
            Seen(AfterSave(w, ev.o, f), NextLedger(LedgerOf(w), RunEnv(w, ev.o).gen, f, ev.o.client), c, p)
  {
    var env, s := RunEnv(w, ev.o), RunStart(w, ev.o);
    RunReady(w, ev);
    Convergence(env, s, ev.paths);
    LoopGens(env, s, ev.paths, p);
    assert Seen(w, LedgerOf(w), c, p);
  }

  lemma SavedInv(w: World, ev: Event)
    requires Inv(w) && ev.Run? && Legal(w, ev) && !ev.o.dryRun && !ev.stop.InLoop?
    ensures Inv(AfterSave(w, ev.o, RunLoop(w, ev)))
  {
    var env, s, f := RunEnv(w, ev.o), RunStart(w, ev.o), RunLoop(w, ev);
    var l := NextLedger(LedgerOf(w), env.gen, f, ev.o.client);
    var w' := AfterSave(w, ev.o, f);
    SaveAtomic(w.disk, l);
    assert LedgerOf(w') == l;
    assert Saved(w.disk, l) in SaveTrace(w.disk, l);
    RunReady(w, ev);
    Convergence(env, s, ev.paths);
    SavedNumbered(w, ev);
    forall c, p ensures Seen(w', l, c, p) { SavedSeen(w, ev, c, p); }
  }

  /** Everything the invariant says about the ledger holds as long as the ledger is the same. */
  lemma UnsavedInv(w: World, w': World)
    requires Inv(w) && Sound(w'.disk) && LoadOf(w'.disk) == LoadOf(w.disk)
    requires Grown(w.blobs, w'.blobs) && Intact(w'.blobs)
    requires w'.views == w.views && w'.agreed == w.agreed
    ensures Inv(w')
  {
    forall c, p ensures Seen(w', LedgerOf(w'), c, p) { assert Seen(w, LedgerOf(w), c, p); }
  }

  lemma LoopIntact(env: Env, s: State, paths: seq<Path>)
    requires Covers(s.blobs, s.files)
    ensures Grown(s.blobs, Loop(env, s, paths).blobs) && Intact(Loop(env, s, paths).blobs)
  {
    LoopGrows(env, s, paths);
    if env.dryRun { DryRunLaws.DryBlobs(env, s, paths); }
  }

  lemma RunInv(w: World, ev: Event)
    requires Inv(w) && ev.Run? && Legal(w, ev)
    ensures Inv(Next(w, ev))
  {
    if ev.o.dryRun || ev.stop.InLoop? {
      StoppedInv(w, ev);
    } else if ev.stop.InSave? {
      SavingInv(w, ev);
    } else {
      var f := RunLoop(w, ev);
      SavedInv(w, ev);
      var l := NextLedger(LedgerOf(w), RunEnv(w, ev.o).gen, f, ev.o.client);
      CollectedInv(AfterSave(w, ev.o, f), ev.stop.collected, f, l);
    }
  }

  lemma InterruptedIntact(env: Env, s: State, paths: seq<Path>, k: nat, operations: nat)
    requires Covers(s.blobs, s.files)
    ensures var t := Interrupted(env, s, paths, k, operations); Grown(s.blobs, t.blobs) && Intact(t.blobs)
  {
    if k < |paths| {
      var t := Loop(env, s, paths[..k]);
      LoopIntact(env, s, paths[..k]);
      PartGrows(env, t, paths[k], Choose(env, CellAt(env, t, paths[k])), operations);
    } else {
      LoopIntact(env, s, paths);
    }
  }

  lemma RunIntact(w: World, ev: Event)
    requires Inv(w) && ev.Run?
    ensures Grown(w.blobs, RunLoop(w, ev).blobs) && Intact(RunLoop(w, ev).blobs)
  {
    if ev.stop.InLoop? {
      InterruptedIntact(RunEnv(w, ev.o), RunStart(w, ev.o), ev.paths, ev.stop.decided, ev.stop.operations);
    } else {
      LoopIntact(RunEnv(w, ev.o), RunStart(w, ev.o), ev.paths);
    }
  }

  /** A run whose ledger was never written. */
  lemma StoppedInv(w: World, ev: Event)
    requires Inv(w) && ev.Run? && (ev.o.dryRun || ev.stop.InLoop?)
    ensures Inv(Next(w, ev))
  {
    RunIntact(w, ev);
    UnsavedInv(w, AfterLoop(w, ev.o.client, RunLoop(w, ev)));
  }

  /** A run that stopped somewhere in its save. */
  lemma SavingInv(w: World, ev: Event)
    requires Inv(w) && ev.Run? && Legal(w, ev) && !ev.o.dryRun && ev.stop.InSave?
    ensures Inv(Next(w, ev))
  {
    var f := RunLoop(w, ev);
    var at := Attempt(NextLedger(LedgerOf(w), RunEnv(w, ev.o).gen, f, ev.o.client), ev.stop.operations);
    AttemptAtomic(w.disk, at);
    if Commits(w.disk, at) {
      SavedInv(w, ev);
    } else {
      RunIntact(w, ev);
      UnsavedInv(w, AfterLoop(w, ev.o.client, f).(disk := AfterAttempt(w.disk, at)));
    }
  }

  lemma CollectedInv(w: World, gone: set<Hash>, f: State, l: Ledger)
    requires Inv(w) && LoadOf(w.disk) == Loaded(l) && l.files == f.files && w.blobs == f.blobs
    requires gone <= f.blobs.Keys - Referenced(f.files)
    ensures Inv(w.(blobs := f.blobs - gone))
  {
    var w' := w.(blobs := f.blobs - gone);
    GCKeepsBases(f.blobs, f.files, gone);
    forall c, p ensures Seen(w', LedgerOf(w'), c, p) { assert Seen(w, LedgerOf(w), c, p); }
  }

  /** Every event keeps the invariant. */
  lemma NextInv(w: World, ev: Event)
    requires Inv(w) && Legal(w, ev)
    ensures Inv(Next(w, ev))
  {
    if ev.Run? {
      RunInv(w, ev);
    } else {
      UnsavedInv(w, Next(w, ev));
    }
  }

  /** The invariant holds after every history. */
  lemma {:induction false} InvAlways(w: World, evs: seq<Event>)
    requires Inv(w) && AllLegal(w, evs)
    ensures Inv(Play(w, evs))
    decreases |evs|
  {
    if evs != [] {
      NextInv(w, evs[0]);
      InvAlways(Next(w, evs[0]), evs[1..]);
    }
  }
}
