/** Versions set aside by different runs never meet (internal/runner/worktree.go, lines 245-253). */
module SidecarLaws {
  import opened Options
  import opened Ledger
  import opened BlobStore
  import opened LedgerStore
  import opened Decision
  import opened Trails
  import opened LoopLaws
  import opened RunLaws
  import opened EditLaws
  import opened Worktree
  import opened History

  // --- names ---

  /** A time stamp as the program writes it holds no dot. */
  predicate Dotless(t: string) {
    '.' !in t
  }

  /** The path ends in what a sidecar of a run at t ends in. */
  predicate EndsIn(q: Path, t: string) {
    var suffix := ".mergefail." + t;
    |suffix| <= |q| && q[|q| - |suffix|..] == suffix
  }

  lemma SidecarEnds(p: Path, t: string)
    ensures EndsIn(Sidecar(p, t), t)
  {
    assert Sidecar(p, t) == p + (".mergefail." + t);
  }

  /** No path ends in the sidecar suffixes of two runs. */
  lemma OneStamp(q: Path, s: string, t: string)
    requires Dotless(s) && Dotless(t) && EndsIn(q, s) && EndsIn(q, t)
    ensures s == t
  {
    DotBefore(q, s);
    DotBefore(q, t);
  }

  lemma DotBefore(q: Path, t: string)
    requires EndsIn(q, t)
    ensures |t| < |q| && q[|q| - |t| - 1] == '.' && q[|q| - |t|..] == t
  {
    var suffix := ".mergefail." + t;
    assert q[|q| - |suffix|..][|suffix| - |t| - 1] == '.';
    assert q[|q| - |t|..] == q[|q| - |suffix|..][|suffix| - |t|..];
    assert suffix[|suffix| - |t|..] == t;
  }

  /** The name of a sidecar tells the path and the run it is from. */
  lemma SidecarTells(p: Path, q: Path, s: string, t: string)
    requires Dotless(s) && Dotless(t) && Sidecar(p, s) == Sidecar(q, t)
    ensures p == q && s == t
  {
    SidecarEnds(p, s);
    SidecarEnds(q, t);
    OneStamp(Sidecar(p, s), s, t);
    SidecarInjective(p, q, s);
  }

  /** For one path, whatever the stamps. */
  lemma StampTells(p: Path, s: string, t: string)
    requires Sidecar(p, s) == Sidecar(p, t)
    ensures s == t
  {
    assert Sidecar(p, s) == p + (".mergefail." + s) && Sidecar(p, t) == p + (".mergefail." + t);
    assert (p + (".mergefail." + s))[|p|..] == ".mergefail." + s;
    assert (p + (".mergefail." + t))[|p|..] == ".mergefail." + t;
    assert (".mergefail." + s)[11..] == s && (".mergefail." + t)[11..] == t;
  }

  // --- names no run has used ---

  /** Nothing in the state has a name that a run at t would set a version aside under. */
  ghost predicate Unused(s: State, t: string) {
    forall q :: q in s.local || q in s.remote || q in s.files || q in s.tombs ==> !EndsIn(q, t)
  }

  /** So such a run finds all its sidecar names free. */
  lemma UnusedIsFresh(env: Env, s: State, paths: seq<Path>)
    requires Listing(s, paths) && Unused(s, env.stamp)
    ensures FreshSidecars(env, s, paths)
  {
    forall p ensures Sidecar(p, env.stamp) !in paths && SlotAt(s, Sidecar(p, env.stamp)) == VACANT {
      SidecarEnds(p, env.stamp);
    }
  }

  /**
   * A version set aside by one run stays where it is when a later run, at a stamp of its own,
   * sets another version of the same path aside.
   */
  lemma SetAsideTwice(
      env: Env, s: State, paths: seq<Path>, env': Env, s': State, paths': seq<Path>, p: Path, x: Content, y: Content)
    requires Runnable(env, s, paths) && p in paths && Choose(env, CellAt(env, s, p)) == Quarantine(x)
    requires var q := Sidecar(p, env.stamp); SlotAt(s', q) == SlotAt(Loop(env, s, paths), q)
    requires !env'.dryRun && env'.localSnap == ScanOf(s'.local) && env'.remoteSnap == ScanOf(s'.remote)
    requires Covers(s'.blobs, s'.files) && Distinct(paths') && Listing(s', paths') && Unused(s', env'.stamp)
    requires p in paths' && Choose(env', CellAt(env', s', p)) == Quarantine(y)
    ensures var f := Loop(env', s', paths');
            && LiveBoth(f, Sidecar(p, env.stamp), x) && LiveBoth(f, Sidecar(p, env'.stamp), y)
            && Sidecar(p, env.stamp) != Sidecar(p, env'.stamp)
  {
    var q := Sidecar(p, env.stamp);
    UnusedIsFresh(env', s', paths');
    LoopSlot(env, s, paths, q);
    assert SidecarOf(env, s, paths, q, p);
    OneOwner(env, s, paths, q, p);
    SetAside(env', s', paths', p);
    SidecarEnds(p, env'.stamp);
    assert SlotAt(s', q).local == Get(s'.local, q) == Some(x);
    LoopHere(env', s', paths', q);
    KeptAside(env', CellAt(env', s', q), x);
    SlotLiveBoth(Loop(env', s', paths'), q, x);
  }

  lemma KeptAside(env: Env, c: Cell, x: Content)
    requires Faithful(c) && c.ours == Some(x) && c.theirs == Some(x) && c.entry.Some? && c.entry.value.hash == Sum(x)
    ensures After(env, c).local == Some(x) && After(env, c).remote == Some(x)
  {
  }

  lemma SlotLiveBoth(f: State, q: Path, x: Content)
    requires SlotAt(f, q).local == Some(x) && SlotAt(f, q).remote == Some(x)
    ensures LiveBoth(f, q, x)
  {
  }

  // --- what a run can name ---

  lemma WrittenNames(env: Env, s: State, p: Path, content: Content, t: string)
    requires Unused(s, t) && !EndsIn(p, t)
    ensures Unused(WrittenBoth(env, s, p, content), t)
  {
  }

  lemma PulledNames(env: Env, s: State, p: Path, t: string)
    requires Unused(s, t) && !EndsIn(p, t)
    ensures Unused(PulledAt(env, s, p), t)
  {
  }

  lemma PushedNames(env: Env, s: State, p: Path, t: string)
    requires Unused(s, t) && !EndsIn(p, t)
    ensures Unused(PushedAt(env, s, p), t)
  {
  }

  lemma InPlaceNames(env: Env, s: State, p: Path, act: Action, t: string)
    requires Unused(s, t) && !EndsIn(p, t) && InPlace(act)
    ensures Unused(Perform(env, s, p, act), t)
  {
  }

  lemma PerformNames(env: Env, s: State, p: Path, act: Action, t: string)
    requires Unused(s, t) && !EndsIn(p, t) && !EndsIn(Sidecar(p, env.stamp), t)
    ensures Unused(Perform(env, s, p, act), t)
  {
    match act {
      case Pull(flagged) => PulledNames(env, Flagged(s, p, flagged), p, t);
      case Push(flagged) => PushedNames(env, Flagged(s, p, flagged), p, t);
      case WriteMerged(content) => WrittenNames(env, s, p, content, t);
      case Quarantine(content) => AsideEndNames(env, s, p, content, t);
      case _ => InPlaceNames(env, s, p, act, t);
    }
  }

  lemma AsideEndNames(env: Env, s: State, p: Path, content: Content, t: string)
    requires Unused(s, t) && !EndsIn(p, t) && !EndsIn(Sidecar(p, env.stamp), t)
    ensures Unused(Perform(env, s, p, Quarantine(content)), t)
  {
    var f := Flagged(s, p, true);
    WrittenNames(env, f, Sidecar(p, env.stamp), content, t);
    PulledNames(env, WrittenBoth(env, f, Sidecar(p, env.stamp), content), p, t);
  }

  lemma {:induction false} LoopNames(env: Env, s: State, paths: seq<Path>, t: string)
    requires Unused(s, t) && forall p :: p in paths ==> !EndsIn(p, t) && !EndsIn(Sidecar(p, env.stamp), t)
    ensures Unused(Loop(env, s, paths), t)
  {
    if paths != [] {
      var n := |paths| - 1;
      var u := Loop(env, s, paths[..n]);
      LoopNames(env, s, paths[..n], t);
      assert paths[n] in paths;
      PerformNames(env, ClearedTomb(u, paths[n], CellAt(env, u, paths[n])), paths[n],
                   Choose(env, CellAt(env, u, paths[n])), t);
    }
  }

  ghost predicate FilesUnused(f: Files, t: string) {
    forall q :: q in f.local || q in f.remote ==> !EndsIn(q, t)
  }

  ghost predicate AllUnused(trail: seq<Files>, t: string) {
    forall i :: 0 <= i < |trail| ==> FilesUnused(trail[i], t)
  }

  lemma BothNames(env: Env, s: State, p: Path, content: Content, t: string)
    requires Unused(s, t) && !EndsIn(p, t)
    ensures AllUnused(BothTrail(env, s, p, content), t)
  {
  }

  lemma CopyNames(env: Env, s: State, p: Path, t: string)
    requires Unused(s, t) && !EndsIn(p, t)
    ensures AllUnused(PullTrail(env, s, p), t) && AllUnused(PushTrail(env, s, p), t)
  {
  }

  lemma AsideNames(env: Env, s: State, p: Path, content: Content, t: string)
    requires Unused(s, t) && !EndsIn(p, t) && !EndsIn(Sidecar(p, env.stamp), t)
    ensures AllUnused(QuarantineTrail(env, s, p, content), t)
  {
    BothNames(env, s, Sidecar(p, env.stamp), content, t);
    WrittenNames(env, s, Sidecar(p, env.stamp), content, t);
    CopyNames(env, WrittenBoth(env, s, Sidecar(p, env.stamp), content), p, t);
  }

  lemma TrailNames(env: Env, s: State, p: Path, act: Action, operations: nat, t: string)
    requires Unused(s, t) && !EndsIn(p, t) && !EndsIn(Sidecar(p, env.stamp), t)
    ensures FilesUnused(FilesAfter(s, Trail(env, s, p, act), operations), t)
  {
    CopyNames(env, s, p, t);
    if act.Quarantine? { AsideNames(env, s, p, act.content, t); }
    if act.WriteMerged? { BothNames(env, s, p, act.content, t); }
    assert AllUnused(Trail(env, s, p, act), t);
  }

  // --- histories ---

  ghost predicate UnusedIn(w: World, t: string) {
    && (forall q :: q in w.hub || q in LedgerOf(w).files || q in LedgerOf(w).tombstones ==> !EndsIn(q, t))
    && forall c, q :: q in LocalOf(w, c) ==> !EndsIn(q, t)
  }

  lemma StartUnused(w: World, o: RunOptions, t: string)
    requires UnusedIn(w, t)
    ensures Unused(RunStart(w, o), t)
  {
  }

  /** What a run's loop leaves, complete or not. */
  lemma RunLoopUnused(w: World, ev: Event, t: string)
    requires ev.Run? && Listing(RunStart(w, ev.o), ev.paths) && UnusedIn(w, t)
    requires Dotless(ev.o.stamp) && Dotless(t) && ev.o.stamp != t
    ensures FilesUnused(FilesOf(RunLoop(w, ev)), t)
    ensures !ev.stop.InLoop? ==> Unused(RunLoop(w, ev), t)
  {
    var env, s := RunEnv(w, ev.o), RunStart(w, ev.o);
    StartUnused(w, ev.o, t);
    forall p | p in ev.paths ensures !EndsIn(p, t) && !EndsIn(Sidecar(p, env.stamp), t) {
      SidecarEnds(p, env.stamp);
      if EndsIn(Sidecar(p, env.stamp), t) { OneStamp(Sidecar(p, env.stamp), env.stamp, t); }
    }
    StoppedUnused(env, s, ev.paths, t);
    if ev.stop.InLoop? {
      InterruptedUnused(env, s, ev.paths, ev.stop.decided, ev.stop.operations, t);
    }
  }

  lemma StoppedUnused(env: Env, s: State, paths: seq<Path>, t: string)
    requires Unused(s, t) && forall p :: p in paths ==> !EndsIn(p, t) && !EndsIn(Sidecar(p, env.stamp), t)
    ensures Unused(Loop(env, s, paths), t) && FilesUnused(FilesOf(Loop(env, s, paths)), t)
  {
    LoopNames(env, s, paths, t);
  }

  lemma InterruptedUnused(env: Env, s: State, paths: seq<Path>, k: nat, operations: nat, t: string)
    requires Unused(s, t) && forall p :: p in paths ==> !EndsIn(p, t) && !EndsIn(Sidecar(p, env.stamp), t)
    ensures FilesUnused(FilesOf(Interrupted(env, s, paths, k, operations)), t)
  {
    if k < |paths| {
      var u := Loop(env, s, paths[..k]);
      LoopNames(env, s, paths[..k], t);
      assert paths[k] in paths;
      TrailNames(env, u, paths[k], Choose(env, CellAt(env, u, paths[k])), operations, t);
    } else {
      StoppedUnused(env, s, paths, t);
    }
  }

  /** The world's replicas are f's, and so is its ledger unless that is as before. */
  lemma WorldUnused(w: World, w': World, c: ClientId, f: State, t: string)
    requires UnusedIn(w, t) && w'.hub == f.remote && w'.locals == w.locals[c := f.local]
    requires FilesUnused(FilesOf(f), t)
    requires LedgerOf(w') == LedgerOf(w)
             || (Unused(f, t) && LedgerOf(w').files == f.files && LedgerOf(w').tombstones == f.tombs)
    ensures UnusedIn(w', t)
  {
    forall d, q | q in LocalOf(w', d) ensures !EndsIn(q, t) {
      assert d != c ==> q in LocalOf(w, d);
    }
  }

  lemma RunUnused(w: World, ev: Event, t: string)
    requires Inv(w) && ev.Run? && Legal(w, ev) && UnusedIn(w, t)
    requires Dotless(ev.o.stamp) && Dotless(t) && ev.o.stamp != t
    ensures UnusedIn(Next(w, ev), t)
  {
    RunLoopUnused(w, ev, t);
    RunWorld(w, ev);
    WorldUnused(w, Next(w, ev), ev.o.client, RunLoop(w, ev), t);
  }

  /** What any run leaves: its loop's replicas, and the ledger as before or its loop's. */
  ghost predicate Leaves(w: World, ev: Event, w': World)
    requires ev.Run?
  {
    var f := RunLoop(w, ev);
    && w'.hub == f.remote && w'.locals == w.locals[ev.o.client := f.local]
    && (|| LedgerOf(w') == LedgerOf(w)
        || (!ev.stop.InLoop? && LedgerOf(w').files == f.files && LedgerOf(w').tombstones == f.tombs))
  }

  lemma UnsavedLeaves(w: World, ev: Event, d: Disk)
    requires ev.Run? && LoadOf(d) == LoadOf(w.disk)
    ensures Leaves(w, ev, AfterLoop(w, ev.o.client, RunLoop(w, ev)).(disk := d))
  {
  }

  lemma SavedLeaves(w: World, ev: Event)
    requires Inv(w) && ev.Run? && !ev.stop.InLoop?
    ensures Leaves(w, ev, AfterSave(w, ev.o, RunLoop(w, ev)))
    ensures forall gone :: Leaves(w, ev, AfterSave(w, ev.o, RunLoop(w, ev)).(blobs := RunLoop(w, ev).blobs - gone))
  {
    SaveAtomic(w.disk, NextLedger(LedgerOf(w), RunEnv(w, ev.o).gen, RunLoop(w, ev), ev.o.client));
  }

  lemma RunWorld(w: World, ev: Event)
    requires Inv(w) && ev.Run?
    ensures Leaves(w, ev, Next(w, ev))
  {
    var f := RunLoop(w, ev);
    UnsavedLeaves(w, ev, w.disk);
    assert AfterLoop(w, ev.o.client, f).(disk := w.disk) == AfterLoop(w, ev.o.client, f);
    if !ev.o.dryRun && !ev.stop.InLoop? {
      SavedLeaves(w, ev);
      if ev.stop.InSave? {
        var at := Attempt(NextLedger(LedgerOf(w), RunEnv(w, ev.o).gen, f, ev.o.client), ev.stop.operations);
        AttemptAtomic(w.disk, at);
        if !Commits(w.disk, at) { UnsavedLeaves(w, ev, AfterAttempt(w.disk, at)); }
      }
    }
  }

  lemma EditUnused(w: World, ev: Event, t: string)
    requires !ev.Run? && UnusedIn(w, t) && (ev.content.Some? ==> !EndsIn(ev.path, t))
    ensures UnusedIn(Next(w, ev), t)
  {
    var w' := Next(w, ev);
    assert LedgerOf(w') == LedgerOf(w);
    forall c, q | q in LocalOf(w', c) ensures !EndsIn(q, t) {
      assert q in LocalOf(w, c) || (ev.content.Some? && q == ev.path);
    }
  }

  /** All that an event must keep to except fresh sidecar names. */
  ghost predicate Listed(w: World, ev: Event) {
    ev.Run? ==>
      && Distinct(ev.paths) && Listing(RunStart(w, ev.o), ev.paths)
      && (ev.stop.Finished? ==>
            ev.stop.collected <= RunLoop(w, ev).blobs.Keys - Referenced(RunLoop(w, ev).files))
  }

  ghost predicate AllListed(w: World, evs: seq<Event>)
    decreases |evs|
  {
    evs == [] || (Listed(w, evs[0]) && AllListed(Next(w, evs[0]), evs[1..]))
  }

  /** Every run has a stamp of its own, and no one writes a file under a name a run would set aside under. */
  ghost predicate OwnStamps(evs: seq<Event>) {
    && (forall i :: 0 <= i < |evs| && evs[i].Run? ==> Dotless(evs[i].o.stamp))
    && (forall i, k :: 0 <= i < k < |evs| && evs[i].Run? && evs[k].Run? ==> evs[i].o.stamp != evs[k].o.stamp)
    && forall i, k :: 0 <= i < |evs| && 0 <= k < |evs| && evs[k].Run? && Writes(evs[i]) ==>
         !EndsIn(evs[i].path, evs[k].o.stamp)
  }

  predicate Writes(ev: Event) {
    !ev.Run? && ev.content.Some?
  }

  ghost predicate StampsUnused(w: World, evs: seq<Event>) {
    forall i :: 0 <= i < |evs| && evs[i].Run? ==> UnusedIn(w, evs[i].o.stamp)
  }

  lemma ListedIsLegal(w: World, ev: Event)
    requires Listed(w, ev) && (ev.Run? ==> UnusedIn(w, ev.o.stamp))
    ensures Legal(w, ev)
  {
    if ev.Run? {
      StartUnused(w, ev.o, ev.o.stamp);
      UnusedIsFresh(RunEnv(w, ev.o), RunStart(w, ev.o), ev.paths);
    }
  }

  lemma RestOwn(w: World, evs: seq<Event>)
    requires Inv(w) && evs != [] && Legal(w, evs[0]) && OwnStamps(evs) && StampsUnused(w, evs)
    ensures OwnStamps(evs[1..]) && StampsUnused(Next(w, evs[0]), evs[1..])
  {
    var rest := evs[1..];
    forall i | 0 <= i < |rest| && rest[i].Run? ensures UnusedIn(Next(w, evs[0]), rest[i].o.stamp) {
      assert rest[i] == evs[i + 1];
      if evs[0].Run? {
        RunUnused(w, evs[0], rest[i].o.stamp);
      } else {
        assert Writes(evs[0]) ==> !EndsIn(evs[0].path, evs[i + 1].o.stamp);
        EditUnused(w, evs[0], rest[i].o.stamp);
      }
    }
    RestStamps(evs);
  }

  lemma RestStamps(evs: seq<Event>)
    requires evs != [] && OwnStamps(evs)
    ensures OwnStamps(evs[1..])
  {
    var rest := evs[1..];
    forall i, k | 0 <= i < |rest| && 0 <= k < |rest|
      ensures rest[i] == evs[i + 1] && rest[k] == evs[k + 1]
      ensures rest[i].Run? ==> Dotless(rest[i].o.stamp)
      ensures i < k && rest[i].Run? && rest[k].Run? ==> rest[i].o.stamp != rest[k].o.stamp
      ensures rest[k].Run? && Writes(rest[i]) ==> !EndsIn(rest[i].path, rest[k].o.stamp)
    {
    }
  }

  /**
   * In a history whose runs have stamps of their own and whose edits write no sidecar names,
   * every run finds its sidecar names unused.
   */
  lemma {:induction false} AlwaysFresh(w: World, evs: seq<Event>)
    requires Inv(w) && AllListed(w, evs) && OwnStamps(evs) && StampsUnused(w, evs)
    ensures AllLegal(w, evs)
    decreases |evs|
  {
    if evs != [] {
      ListedIsLegal(w, evs[0]);
      RestOwn(w, evs);
      NextInv(w, evs[0]);
      AlwaysFresh(Next(w, evs[0]), evs[1..]);
    }
  }
}
