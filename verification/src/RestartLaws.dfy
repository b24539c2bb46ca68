/** A reconcile loop that stops early, with its ledger unsaved, and is run again. */
module RestartLaws {
  import opened Options
  import opened Ledger
  import opened BlobStore
  import opened Decision
  import opened LoopLaws
  import opened RunLaws
  import opened EditLaws

  /** The next run of the same client: the ledger is as it was loaded, replicas and blobs as they were left. */
  function Abandoned(s: State, stopped: State): State {
    s.(local := stopped.local, remote := stopped.remote, blobs := stopped.blobs)
  }

  /** It takes its own snapshots and has its own time stamp. */
  function Again(env: Env, s: State, stamp: string): Env {
    env.(localSnap := ScanOf(s.local), remoteSnap := ScanOf(s.remote), stamp := stamp)
  }

  /** s' is what an unsaved run over s left: other replicas and more blobs, but the same ledger. */
  ghost predicate Unsaved(s: State, s': State) {
    Covers(s.blobs, s.files) && Grown(s.blobs, s'.blobs) && s'.files == s.files && s'.tombs == s.tombs
  }

  /** The next run over what was left lists paths'. */
  ghost predicate Resumes(env: Env, s: State, s': State, stamp: string, paths': seq<Path>) {
    Unsaved(s, s') && Runnable(Again(env, s', stamp), s', paths')
  }

  // --- one path in the next run ---

  /** The cell of a path whose replicas have changed since the ledger was loaded. */
  function Met(c: Cell, ours: Option<Content>, theirs: Option<Content>): Cell {
    c.(a := HashIf(ours), b := HashIf(theirs), ours := ours, theirs := theirs)
  }

  lemma MetCell(env: Env, s: State, s': State, stamp: string, q: Path)
    requires Unsaved(s, s')
    ensures CellAt(Again(env, s', stamp), s', q) == Met(CellAt(env, s, q), Get(s'.local, q), Get(s'.remote, q))
    ensures Choose(Again(env, s', stamp), CellAt(Again(env, s', stamp), s', q)) ==
            Choose(env, Met(CellAt(env, s, q), Get(s'.local, q), Get(s'.remote, q)))
  {
    SameChoice(env, Again(env, s', stamp), CellAt(Again(env, s', stamp), s', q));
  }

  lemma EndsAgain(env: Env, s: State, s': State, stamp: string, paths': seq<Path>, q: Path)
    requires Resumes(env, s, s', stamp, paths') && q in paths'
    ensures SlotAt(Loop(Again(env, s', stamp), s', paths'), q) ==
            After(env, Met(CellAt(env, s, q), Get(s'.local, q), Get(s'.remote, q)))
  {
    LoopHere(Again(env, s', stamp), s', paths', q);
    MetCell(env, s, s', stamp, q);
    SameChoice(env, Again(env, s', stamp), CellAt(Again(env, s', stamp), s', q));
  }

  /** Same contents on both replicas and the same hash in the ledger. */
  ghost predicate SameOutcome(t: Slot, u: Slot) {
    && t.local == u.local && t.remote == u.remote
    && (t.entry.Some? <==> u.entry.Some?)
    && (t.entry.Some? ==> t.entry.value.hash == u.entry.value.hash)
  }

  /** A decided path, met again before its ledger entry was saved, stays as decided. */
  lemma DecidedAgain(env: Env, c: Cell)
    requires Faithful(c)
    ensures var t := After(env, c);
            SameOutcome(After(env, Met(c, t.local, t.remote)), t) && !Choose(env, Met(c, t.local, t.remote)).Quarantine?
  {
    AfterSettled(env, c);
    AfterSettled(env, Met(c, After(env, c).local, After(env, c).remote));
  }

  lemma EqualSidesNotQuarantined(env: Env, c: Cell)
    requires c.a == c.b
    ensures !Choose(env, c).Quarantine?
  {
  }

  /** The next run finds at q what a completed decision left, or what was there before. */
  ghost predicate FoundDecided(env: Env, s: State, s': State, q: Path) {
    Get(s'.local, q) == After(env, CellAt(env, s, q)).local && Get(s'.remote, q) == After(env, CellAt(env, s, q)).remote
  }

  ghost predicate FoundUntouched(s: State, s': State, q: Path) {
    Get(s'.local, q) == Get(s.local, q) && Get(s'.remote, q) == Get(s.remote, q)
  }

  /** A path that is in no record cannot vanish from both replicas. */
  lemma StillThere(env: Env, c: Cell)
    requires Faithful(c) && c.entry.None? && c.tomb.None? && (c.ours.Some? || c.theirs.Some?)
    ensures After(env, c).local.Some?
  {
    ChoiceFits(env, c);
  }

  lemma StillListed(env: Env, s: State, paths: seq<Path>, s': State, stamp: string, paths': seq<Path>, q: Path)
    requires Runnable(env, s, paths) && Resumes(env, s, s', stamp, paths') && q in paths
    requires FoundDecided(env, s, s', q) || FoundUntouched(s, s', q) || q in s'.local
    ensures q in paths'
  {
    ReadyCell(env, s, paths, q);
    var c := CellAt(env, s, q);
    if c.entry.None? && c.tomb.None? { StillThere(env, c); }
    assert c.ours == Get(s.local, q) && c.theirs == Get(s.remote, q);
  }

  /** Decided or untouched, a listed path ends in the next run as its first decision has it. */
  lemma PathAgain(env: Env, s: State, paths: seq<Path>, s': State, stamp: string, paths': seq<Path>, q: Path)
    requires Runnable(env, s, paths) && Resumes(env, s, s', stamp, paths') && q in paths
    requires FoundDecided(env, s, s', q) || FoundUntouched(s, s', q)
    ensures SameOutcome(SlotAt(Loop(Again(env, s', stamp), s', paths'), q), After(env, CellAt(env, s, q)))
  {
    var c := CellAt(env, s, q);
    ReadyCell(env, s, paths, q);
    StillListed(env, s, paths, s', stamp, paths', q);
    EndsAgain(env, s, s', stamp, paths', q);
    if FoundDecided(env, s, s', q) {
      DecidedAgain(env, c);
    } else {
      assert Met(c, c.ours, c.theirs) == c;
    }
  }

  // --- sidecars ---

  /** A sidecar name that the next run finds with the set-aside content on a replica. */
  lemma OldSidecarEnds(env: Env, s: State, s': State, stamp: string, paths': seq<Path>, q: Path, x: Content)
    requires Resumes(env, s, s', stamp, paths') && SlotAt(s, q) == VACANT
    requires Get(s'.local, q) == Some(x) && (Get(s'.remote, q) == Some(x) || Get(s'.remote, q) == None)
    ensures SlotAt(Loop(Again(env, s', stamp), s', paths'), q) == LiveSlot(env, x)
  {
    EndsAgain(env, s, s', stamp, paths', q);
    SidecarAdopted(env, CellAt(env, s, q), x, Get(s'.remote, q));
  }

  lemma SidecarAdopted(env: Env, c: Cell, x: Content, theirs: Option<Content>)
    requires c.entry.None? && c.tomb.None? && (theirs == Some(x) || theirs == None)
    ensures After(env, Met(c, Some(x), theirs)) == LiveSlot(env, x)
  {
  }

  /** A quarantined path that the next run finds untouched is quarantined again, under its own stamp. */
  lemma NewSidecarEnds(env: Env, s: State, paths: seq<Path>, s': State, stamp: string, paths': seq<Path>, p: Path)
    requires Runnable(env, s, paths) && Resumes(env, s, s', stamp, paths') && p in paths
    requires FoundUntouched(s, s', p) && Choose(env, CellAt(env, s, p)).Quarantine?
    ensures SlotAt(Loop(Again(env, s', stamp), s', paths'), Sidecar(p, stamp)) ==
            LiveSlot(env, Choose(env, CellAt(env, s, p)).content)
  {
    var env' := Again(env, s', stamp);
    var c, q := CellAt(env, s, p), Sidecar(p, stamp);
    ReadyCell(env, s, paths, p);
    StillListed(env, s, paths, s', stamp, paths', p);
    MetCell(env, s, s', stamp, p);
    assert Met(c, c.ours, c.theirs) == c;
    assert SidecarOf(env', s', paths', q, p);
    LoopSlot(env', s', paths', q);
    OneOwner(env', s', paths', q, p);
  }

  // --- stops between two paths ---

  /** The first run's loop over paths ended after k of them, whatever blobs it had put. */
  ghost predicate StoppedAfter(env: Env, s: State, paths: seq<Path>, k: nat, s': State) {
    && Runnable(env, s, paths) && k <= |paths| && Unsaved(s, s')
    && s'.local == Loop(env, s, paths[..k]).local && s'.remote == Loop(env, s, paths[..k]).remote
  }

  /** And is run again in full. */
  ghost predicate Restarted(
      env: Env, s: State, paths: seq<Path>, k: nat, s': State, stamp: string, paths': seq<Path>) {
    StoppedAfter(env, s, paths, k, s') && Resumes(env, s, s', stamp, paths')
  }

  lemma FoundAgain(env: Env, s: State, paths: seq<Path>, k: nat, s': State, q: Path)
    requires StoppedAfter(env, s, paths, k, s') && q in paths
    ensures if q in paths[..k] then FoundDecided(env, s, s', q) else FoundUntouched(s, s', q)
  {
    var t := Loop(env, s, paths[..k]);
    PrefixReady(env, s, paths, k);
    LoopSlot(env, s, paths[..k], q);
    assert forall p :: p in paths[..k] ==> p in paths;
    assert q !in paths[..k] ==> forall p :: !SidecarOf(env, s, paths[..k], q, p);
    assert SlotAt(t, q).local == Get(t.local, q) && SlotAt(t, q).remote == Get(t.remote, q);
    assert SlotAt(s, q).local == Get(s.local, q) && SlotAt(s, q).remote == Get(s.remote, q);
  }

  /** The name under which p's version ends up: its sidecar in the run that quarantined it. */
  function AsideName(env: Env, paths: seq<Path>, k: nat, stamp: string, p: Path): Path
    requires k <= |paths|
  {
    Sidecar(p, if p in paths[..k] then env.stamp else stamp)
  }

  lemma AsideAgain(
      env: Env, s: State, paths: seq<Path>, k: nat, s': State, stamp: string, paths': seq<Path>, p: Path)
    requires Restarted(env, s, paths, k, s', stamp, paths') && p in paths
    requires Choose(env, CellAt(env, s, p)).Quarantine?
    ensures SlotAt(Loop(Again(env, s', stamp), s', paths'), AsideName(env, paths, k, stamp, p)) ==
            LiveSlot(env, Choose(env, CellAt(env, s, p)).content)
  {
    var x := Choose(env, CellAt(env, s, p)).content;
    if p in paths[..k] {
      var q := Sidecar(p, env.stamp);
      SidecarLeft(env, s, paths, k, p);
      OldSidecarEnds(env, s, s', stamp, paths', q, x);
    } else {
      FoundAgain(env, s, paths, k, s', p);
      NewSidecarEnds(env, s, paths, s', stamp, paths', p);
    }
  }

  lemma SidecarLeft(env: Env, s: State, paths: seq<Path>, k: nat, p: Path)
    requires Runnable(env, s, paths) && k <= |paths| && p in paths[..k] && Choose(env, CellAt(env, s, p)).Quarantine?
    ensures var q := Sidecar(p, env.stamp); var x := Choose(env, CellAt(env, s, p)).content;
            SlotAt(s, q) == VACANT && LiveBoth(Loop(env, s, paths[..k]), q, x)
  {
    var q, t := Sidecar(p, env.stamp), Loop(env, s, paths[..k]);
    assert p in paths;
    PrefixReady(env, s, paths, k);
    assert SidecarOf(env, s, paths[..k], q, p);
    LoopSlot(env, s, paths[..k], q);
    OneOwner(env, s, paths[..k], q, p);
    assert SlotAt(t, q).local == Get(t.local, q) && SlotAt(t, q).remote == Get(t.remote, q);
  }

  /** q is a path of the first run's listing or a name its quarantined paths are set aside under. */
  ghost predicate Accounted(env: Env, s: State, paths: seq<Path>, k: nat, stamp: string, q: Path)
    requires k <= |paths|
  {
    q in paths || exists p :: AsideOf(env, s, paths, k, stamp, p, q)
  }

  ghost predicate AsideOf(env: Env, s: State, paths: seq<Path>, k: nat, stamp: string, p: Path, q: Path)
    requires k <= |paths|
  {
    p in paths && Choose(env, CellAt(env, s, p)).Quarantine? && q == AsideName(env, paths, k, stamp, p)
  }

  /** Outside the listing a stopped loop leaves nothing but the sidecars of the paths it decided. */
  lemma NothingElseLeft(env: Env, s: State, paths: seq<Path>, k: nat, q: Path)
    requires Runnable(env, s, paths) && k <= |paths| && q !in paths
    requires forall p :: !SidecarOf(env, s, paths[..k], q, p)
    ensures SlotAt(Loop(env, s, paths[..k]), q) == VACANT && SlotAt(s, q) == VACANT
  {
    PrefixReady(env, s, paths, k);
    LoopSlot(env, s, paths[..k], q);
    assert q !in paths[..k];
  }

  /** The next run quarantines only what the first would have, had it got there. */
  lemma QuarantinedAgain(env: Env, s: State, paths: seq<Path>, k: nat, s': State, stamp: string, p: Path)
    requires StoppedAfter(env, s, paths, k, s')
    requires Choose(Again(env, s', stamp), CellAt(Again(env, s', stamp), s', p)).Quarantine?
    ensures p in paths && p !in paths[..k] && Choose(env, CellAt(env, s, p)).Quarantine?
  {
    var c := CellAt(env, s, p);
    MetCell(env, s, s', stamp, p);
    if p in paths {
      ReadyCell(env, s, paths, p);
      FoundAgain(env, s, paths, k, s', p);
      if p in paths[..k] { DecidedAgain(env, c); }
      assert Met(c, c.ours, c.theirs) == c;
    } else if o :| SidecarOf(env, s, paths[..k], p, o) {
      assert o in paths;
      SidecarLeft(env, s, paths, k, o);
      EqualSidesNotQuarantined(env, Met(c, Get(s'.local, p), Get(s'.remote, p)));
    } else {
      NothingElseLeft(env, s, paths, k, p);
      assert SlotAt(Loop(env, s, paths[..k]), p).local == Get(s'.local, p);
      EqualSidesNotQuarantined(env, Met(c, Get(s'.local, p), Get(s'.remote, p)));
    }
  }

  lemma NothingElse(
      env: Env, s: State, paths: seq<Path>, k: nat, s': State, stamp: string, paths': seq<Path>, q: Path)
    requires Restarted(env, s, paths, k, s', stamp, paths') && !Accounted(env, s, paths, k, stamp, q)
    ensures SlotAt(Loop(Again(env, s', stamp), s', paths'), q) == VACANT
  {
    var env', t := Again(env, s', stamp), Loop(env, s, paths[..k]);
    forall p ensures !SidecarOf(env, s, paths[..k], q, p) {
      assert !AsideOf(env, s, paths, k, stamp, p, q);
      assert p in paths[..k] ==> p in paths;
    }
    NothingElseLeft(env, s, paths, k, q);
    assert SlotAt(t, q).local == Get(s'.local, q) && SlotAt(t, q).remote == Get(s'.remote, q);
    assert SlotAt(s, q).entry == Get(s'.files, q) && SlotAt(s, q).tomb == Get(s'.tombs, q);
    assert q !in paths' && SlotAt(s', q) == VACANT;
    forall p ensures !SidecarOf(env', s', paths', q, p) {
      if SidecarOf(env', s', paths', q, p) {
        QuarantinedAgain(env, s, paths, k, s', stamp, p);
        assert AsideOf(env, s, paths, k, stamp, p, q);
      }
    }
    LoopSlot(env', s', paths', q);
  }

  /**
   * A loop stopped after any k paths, its ledger unsaved, and then run in full at any time
   * stamp: every listed path ends as in one uninterrupted run, every version that run sets
   * aside is set aside under the stamp of the run that reached it, and there is nothing else.
   */
  lemma RestartConfluence(
      env: Env, s: State, paths: seq<Path>, k: nat, s': State, stamp: string, paths': seq<Path>, q: Path)
    requires Restarted(env, s, paths, k, s', stamp, paths')
    ensures var f, f' := Loop(env, s, paths), Loop(Again(env, s', stamp), s', paths');
            && (q in paths ==> SameOutcome(SlotAt(f', q), SlotAt(f, q)))
            && (q in paths && Choose(env, CellAt(env, s, q)).Quarantine? ==>
                  SlotAt(f', AsideName(env, paths, k, stamp, q)) == SlotAt(f, Sidecar(q, env.stamp)))
            && (!Accounted(env, s, paths, k, stamp, q) ==> SlotAt(f', q) == VACANT)
  {
    if q in paths {
      LoopHere(env, s, paths, q);
      FoundAgain(env, s, paths, k, s', q);
      PathAgain(env, s, paths, s', stamp, paths', q);
      if Choose(env, CellAt(env, s, q)).Quarantine? {
        AsideAgain(env, s, paths, k, s', stamp, paths', q);
        LoopSlot(env, s, paths, Sidecar(q, env.stamp));
        OneOwner(env, s, paths, Sidecar(q, env.stamp), q);
      }
    }
    if !Accounted(env, s, paths, k, stamp, q) { NothingElse(env, s, paths, k, s', stamp, paths', q); }
  }

  // --- the same stamp ---

  /** With the first run's own stamp the next run finds its sidecar names unused. */
  lemma SameStampFresh(env: Env, s: State, paths: seq<Path>, k: nat, s': State, paths': seq<Path>)
    requires StoppedAfter(env, s, paths, k, s') && Listing(s', paths')
    ensures FreshSidecars(Again(env, s', env.stamp), s', paths')
  {
    var env' := Again(env, s', env.stamp);
    forall p | p in paths' && Choose(env', CellAt(env', s', p)).Quarantine?
      ensures Sidecar(p, env.stamp) !in paths' && SlotAt(s', Sidecar(p, env.stamp)) == VACANT
    {
      QuarantinedAgain(env, s, paths, k, s', env.stamp, p);
      SidecarUnused(env, s, paths, k, s', p);
    }
  }

  lemma SidecarUnused(env: Env, s: State, paths: seq<Path>, k: nat, s': State, p: Path)
    requires StoppedAfter(env, s, paths, k, s') && p in paths && p !in paths[..k]
    requires Choose(env, CellAt(env, s, p)).Quarantine?
    ensures SlotAt(s', Sidecar(p, env.stamp)) == VACANT
  {
    var q, t := Sidecar(p, env.stamp), Loop(env, s, paths[..k]);
    forall o ensures !SidecarOf(env, s, paths[..k], q, o) {
      if q == Sidecar(o, env.stamp) { SidecarInjective(o, p, env.stamp); }
    }
    NothingElseLeft(env, s, paths, k, q);
    assert SlotAt(t, q).local == Get(s'.local, q) && SlotAt(t, q).remote == Get(s'.remote, q);
    assert SlotAt(s, q).entry == Get(s'.files, q) && SlotAt(s, q).tomb == Get(s'.tombs, q);
  }

  /** Outside the listing an uninterrupted run leaves only its sidecars. */
  lemma OnlySidecars(env: Env, s: State, paths: seq<Path>, k: nat, q: Path)
    requires Runnable(env, s, paths) && k <= |paths| && !Accounted(env, s, paths, k, env.stamp, q)
    ensures SlotAt(Loop(env, s, paths), q) == VACANT
  {
    forall p ensures !SidecarOf(env, s, paths, q, p) {
      assert !AsideOf(env, s, paths, k, env.stamp, p, q);
    }
    assert paths[..|paths|] == paths;
    NothingElseLeft(env, s, paths, |paths|, q);
  }

  lemma SameStampSlot(env: Env, s: State, paths: seq<Path>, k: nat, s': State, paths': seq<Path>, q: Path)
    requires Restarted(env, s, paths, k, s', env.stamp, paths')
    ensures SameOutcome(SlotAt(Loop(Again(env, s', env.stamp), s', paths'), q), SlotAt(Loop(env, s, paths), q))
  {
    RestartConfluence(env, s, paths, k, s', env.stamp, paths', q);
    if q !in paths {
      if p :| AsideOf(env, s, paths, k, env.stamp, p, q) {
        RestartConfluence(env, s, paths, k, s', env.stamp, paths', p);
      } else {
        OnlySidecars(env, s, paths, k, q);
      }
    }
  }

  /** At the same stamp the next run ends with the very replicas and ledger hashes of one uninterrupted run. */
  lemma SameStampRestart(env: Env, s: State, paths: seq<Path>, k: nat, s': State, paths': seq<Path>)
    requires StoppedAfter(env, s, paths, k, s') && Intact(s'.blobs) && Distinct(paths') && Listing(s', paths')
    ensures var f, f' := Loop(env, s, paths), Loop(Again(env, s', env.stamp), s', paths');
            && f'.local == f.local && f'.remote == f.remote
            && f'.files.Keys == f.files.Keys
            && forall p :: p in f.files ==> f'.files[p].hash == f.files[p].hash
  {
    SameStampFresh(env, s, paths, k, s', paths');
    forall q
      ensures SameOutcome(SlotAt(Loop(Again(env, s', env.stamp), s', paths'), q), SlotAt(Loop(env, s, paths), q))
    {
      SameStampSlot(env, s, paths, k, s', paths', q);
    }
    SameStates(Loop(Again(env, s', env.stamp), s', paths'), Loop(env, s, paths));
  }

  lemma SameStates(f': State, f: State)
    requires forall p :: SameOutcome(SlotAt(f', p), SlotAt(f, p))
    ensures f'.local == f.local && f'.remote == f.remote
    ensures f'.files.Keys == f.files.Keys
    ensures forall p :: p in f.files ==> f'.files[p].hash == f.files[p].hash
  {
    forall p ensures Get(f'.local, p) == Get(f.local, p) && Get(f'.remote, p) == Get(f.remote, p)
             ensures p in f'.files <==> p in f.files
             ensures p in f.files ==> f'.files[p].hash == f.files[p].hash
    {
      assert SameOutcome(SlotAt(f', p), SlotAt(f, p));
    }
    SameTree(f'.local, f.local);
    SameTree(f'.remote, f.remote);
  }

  // --- the pre-pass of the next run ---

  lemma PlannedAgain(env: Env, s: State, paths: seq<Path>, k: nat, s': State, stamp: string, p: Path)
    requires StoppedAfter(env, s, paths, k, s') && PlannedAt(Again(env, s', stamp), s', p)
    ensures p in paths && PlannedAt(env, s, p)
  {
    var c := CellAt(env, s, p);
    MetCell(env, s, s', stamp, p);
    assert p in s.files;
    assert p in paths;
    ReadyCell(env, s, paths, p);
    FoundAgain(env, s, paths, k, s', p);
    if p in paths[..k] { AfterSettled(env, c); }
    assert Met(c, c.ours, c.theirs) == c;
  }

  /** The pre-pass does not refuse the next run when it let the first one through. */
  lemma RestartNotRefused(
      env: Env, s: State, paths: seq<Path>, k: nat, s': State, stamp: string, paths': seq<Path>)
    requires StoppedAfter(env, s, paths, k, s')
    ensures MassDelete(|Planned(Again(env, s', stamp), s', paths')|, |s'.files|) ==>
              MassDelete(|Planned(env, s, paths)|, |s.files|)
  {
    forall p | p in Planned(Again(env, s', stamp), s', paths') ensures p in Planned(env, s, paths) {
      PlannedAgain(env, s, paths, k, s', stamp, p);
    }
    Fewer(Planned(Again(env, s', stamp), s', paths'), Planned(env, s, paths));
  }
}
