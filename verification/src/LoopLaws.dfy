/**
 * The reconcile loop, path by path: whatever the visiting order, each path ends as its own
 * decision on the state before the run says, and a quarantined path also fills its sidecar.
 */
module LoopLaws {
  import opened Options
  import opened Ledger
  import opened BlobStore
  import opened Decision

  /** One path on both replicas and in the ledger. */
  datatype Slot = Slot(
    local: Option<Content>, remote: Option<Content>,
    entry: Option<FileEntry>, tomb: Option<Tombstone>)

  const VACANT: Slot := Slot(None, None, None, None)

  function SlotAt(s: State, p: Path): Slot {
    Slot(Get(s.local, p), Get(s.remote, p), Get(s.files, p), Get(s.tombs, p))
  }

  function ScanOf(t: Tree): Snapshot {
    map p | p in t :: Sum(t[p])
  }

  function HashIf(content: Option<Content>): Hash {
    if content.Some? then Sum(content.value) else NoHash
  }

  /** Hashes agree with contents, and the base is the version the ledger names. */
  ghost predicate Faithful(c: Cell) {
    && c.a == HashIf(c.ours) && c.b == HashIf(c.theirs)
    && c.base == (if c.entry.Some? then c.base else None)
    && (c.entry.Some? ==> c.base.Some? && c.entry.value.hash == Sum(c.base.value))
  }

  function LiveSlot(env: Env, content: Content): Slot {
    Slot(Some(content), Some(content), Some(FileEntry(Sum(content), env.gen)), None)
  }

  function GoneSlot(env: Env, c: Cell): Slot {
    Slot(None, None, None, Some(Tombstone(env.gen, Known(c))))
  }

  /** Where a path ends after a completed, non-dry action. */
  function AfterAction(env: Env, c: Cell, act: Action): Slot {
    match act
    case Keep | Fail(_) => Slot(c.ours, c.theirs, c.entry, c.tomb)
    case Forget => Slot(c.ours, c.theirs, None, c.tomb)
    case Adopt(content) => Slot(c.ours, c.theirs, Some(FileEntry(Sum(content), env.gen)), None)
    case Pull(_) | Quarantine(_) => if c.theirs.Some? then LiveSlot(env, c.theirs.value) else VACANT
    case Push(_) => if c.ours.Some? then LiveSlot(env, c.ours.value) else VACANT
    case DropLocal | DropRemote => GoneSlot(env, c)
    case WriteMerged(content) => LiveSlot(env, content)
  }

  function After(env: Env, c: Cell): Slot {
    AfterAction(env, c, Choose(env, c))
  }

  /** Neither snapshots nor the stamp matter to a choice once the cell is known. */
  lemma SameChoice(env: Env, env': Env, c: Cell)
    requires env' == env.(localSnap := env'.localSnap, remoteSnap := env'.remoteSnap, stamp := env'.stamp)
    ensures Choose(env', c) == Choose(env, c)
    ensures After(env', c) == After(env, c)
  {
    if c.ours.Some? && c.theirs.Some? {
      assert MergedBy(env', c) == MergedBy(env, c);
    }
    assert Diverged(env', c) == Diverged(env, c);
  }

  ghost predicate Distinct(paths: seq<Path>) {
    forall i, j :: 0 <= i < j < |paths| ==> paths[i] != paths[j]
  }

  /** A run that can start: real, on distinct paths, with true snapshots and fresh sidecars. */
  ghost predicate Ready(env: Env, s: State, paths: seq<Path>) {
    && !env.dryRun
    && env.localSnap == ScanOf(s.local) && env.remoteSnap == ScanOf(s.remote)
    && Covers(s.blobs, s.files)
    && Distinct(paths)
    && FreshSidecars(env, s, paths)
  }

  /** A path that is quarantined finds its sidecar name unused. */
  ghost predicate FreshSidecars(env: Env, s: State, paths: seq<Path>) {
    forall p :: p in paths && Choose(env, CellAt(env, s, p)).Quarantine? ==>
      Sidecar(p, env.stamp) !in paths && SlotAt(s, Sidecar(p, env.stamp)) == VACANT
  }

  /** q is the sidecar that p's decision writes. */
  ghost predicate SidecarOf(env: Env, s: State, paths: seq<Path>, q: Path, p: Path) {
    p in paths && Choose(env, CellAt(env, s, p)).Quarantine? && q == Sidecar(p, env.stamp)
  }

  /** Where any path ends once the listed paths have been decided. */
  ghost function FinalSlot(env: Env, s: State, paths: seq<Path>, q: Path): Slot {
    if q in paths then After(env, CellAt(env, s, q))
    else if exists p :: SidecarOf(env, s, paths, q, p) then
      var p :| SidecarOf(env, s, paths, q, p);
      LiveSlot(env, Choose(env, CellAt(env, s, p)).content)
    else SlotAt(s, q)
  }

  lemma SidecarInjective(p: Path, q: Path, stamp: string)
    requires Sidecar(p, stamp) == Sidecar(q, stamp)
    ensures p == q
  {
    var suffix := ".mergefail." + stamp;
    assert |p| == |q|;
    assert p == (p + suffix)[..|p|] && q == (q + suffix)[..|q|];
    assert p + suffix == Sidecar(p, stamp) && q + suffix == Sidecar(q, stamp);
  }

  lemma SidecarDiffers(p: Path, stamp: string)
    ensures Sidecar(p, stamp) != p
  {
    assert |Sidecar(p, stamp)| > |p|;
  }

  // --- one step ---

  lemma ReadyCell(env: Env, s: State, paths: seq<Path>, p: Path)
    requires Ready(env, s, paths)
    ensures Faithful(CellAt(env, s, p))
  {
  }

  /** Blobs are only ever added. */
  ghost predicate Grown(before: Blobs, after: Blobs) {
    forall h :: h in before ==> h in after && after[h] == before[h]
  }

  lemma RecordedGrows(env: Env, s: State, p: Path, content: Content)
    ensures Grown(s.blobs, Recorded(env, s, p, content).blobs)
    ensures !env.dryRun && Covers(s.blobs, s.files) ==>
              Covers(Recorded(env, s, p, content).blobs, Recorded(env, s, p, content).files)
  {
    if !env.dryRun && Covers(s.blobs, s.files) {
      PutKeepsBases(s.blobs, s.files, p, content, env.gen);
    }
  }

  /** No action loses a blob, and the versions it records have theirs. */
  lemma PerformGrows(env: Env, s: State, p: Path, act: Action)
    ensures Grown(s.blobs, Perform(env, s, p, act).blobs)
    ensures !env.dryRun && Covers(s.blobs, s.files) ==>
              Covers(Perform(env, s, p, act).blobs, Perform(env, s, p, act).files)
  {
    match act {
      case Adopt(content) =>
        RecordedGrows(env, s, p, content);
      case Pull(flagged) =>
        PulledGrows(env, Flagged(s, p, flagged), p);
      case Push(flagged) =>
        if p in s.local {
          RecordedGrows(env, Flagged(s, p, flagged).(remote := s.remote[p := s.local[p]]), p, s.local[p]);
        }
      case WriteMerged(content) =>
        WrittenGrows(env, s, p, content);
      case Quarantine(content) =>
        var t := WrittenBoth(env, Flagged(s, p, true), Sidecar(p, env.stamp), content);
        WrittenGrows(env, Flagged(s, p, true), Sidecar(p, env.stamp), content);
        PulledGrows(env, t, p);
      case _ =>
    }
  }

  lemma PulledGrows(env: Env, s: State, p: Path)
    ensures Grown(s.blobs, PulledAt(env, s, p).blobs)
    ensures !env.dryRun && Covers(s.blobs, s.files) ==>
              Covers(PulledAt(env, s, p).blobs, PulledAt(env, s, p).files)
  {
    if p in s.remote {
      RecordedGrows(env, s.(local := s.local[p := s.remote[p]]), p, s.remote[p]);
    }
  }

  lemma WrittenGrows(env: Env, s: State, p: Path, content: Content)
    ensures Grown(s.blobs, WrittenBoth(env, s, p, content).blobs)
    ensures !env.dryRun && Covers(s.blobs, s.files) ==>
              Covers(WrittenBoth(env, s, p, content).blobs, WrittenBoth(env, s, p, content).files)
  {
    RecordedGrows(env, s.(local := s.local[p := content], remote := s.remote[p := content]), p, content);
  }

  lemma StepGrows(env: Env, s: State, p: Path)
    ensures Grown(s.blobs, Step(env, s, p).blobs)
    ensures !env.dryRun && Covers(s.blobs, s.files) ==> Covers(Step(env, s, p).blobs, Step(env, s, p).files)
  {
    var c := CellAt(env, s, p);
    PerformGrows(env, ClearedTomb(s, p, c), p, Choose(env, c));
  }

  lemma WrittenSlot(env: Env, s: State, p: Path, content: Content, q: Path)
    requires !env.dryRun
    ensures SlotAt(WrittenBoth(env, s, p, content), q) == if q == p then LiveSlot(env, content) else SlotAt(s, q)
  {
  }

  lemma PulledSlot(env: Env, s: State, p: Path, q: Path)
    requires !env.dryRun && p in s.remote
    ensures SlotAt(PulledAt(env, s, p), q) == if q == p then LiveSlot(env, s.remote[p]) else SlotAt(s, q)
  {
  }

  lemma PushedSlot(env: Env, s: State, p: Path, q: Path)
    requires !env.dryRun && p in s.local
    ensures SlotAt(PushedAt(env, s, p), q) == if q == p then LiveSlot(env, s.local[p]) else SlotAt(s, q)
  {
  }

  lemma QuarantineSlot(env: Env, s: State, p: Path, content: Content, q: Path)
    requires !env.dryRun && p in s.remote
    ensures SlotAt(Perform(env, s, p, Quarantine(content)), q) ==
            if q == p then LiveSlot(env, s.remote[p])
            else if q == Sidecar(p, env.stamp) then LiveSlot(env, content)
            else SlotAt(s, q)
  {
    SidecarDiffers(p, env.stamp);
    var f := Flagged(s, p, true);
    var t := WrittenBoth(env, f, Sidecar(p, env.stamp), content);
    WrittenSlot(env, f, Sidecar(p, env.stamp), content, p);
    WrittenSlot(env, f, Sidecar(p, env.stamp), content, q);
    PulledSlot(env, t, p, q);
  }

  /** The actions other than the copies, which the three lemmas above describe. */
  predicate InPlace(act: Action) {
    !act.Pull? && !act.Push? && !act.WriteMerged? && !act.Quarantine?
  }

  lemma InPlaceSlot(env: Env, s: State, p: Path, act: Action, q: Path)
    requires !env.dryRun && InPlace(act)
    requires act.DropLocal? ==> p !in s.remote
    requires act.DropRemote? ==> p !in s.local
    ensures SlotAt(Perform(env, s, p, act), q) ==
            if q == p then AfterAction(env, CellAt(env, s, p), act) else SlotAt(s, q)
  {
  }

  /** Each action can be carried out on the path as it stands. */
  ghost predicate Possible(s: State, p: Path, act: Action) {
    && (act.Pull? || act.Quarantine? ==> p in s.remote)
    && (act.Push? ==> p in s.local)
    && (act.DropLocal? ==> p !in s.remote)
    && (act.DropRemote? ==> p !in s.local)
  }

  lemma PullSlot(env: Env, s: State, p: Path, flagged: bool, q: Path)
    requires !env.dryRun && p in s.remote
    ensures SlotAt(Perform(env, s, p, Pull(flagged)), q) == if q == p then LiveSlot(env, s.remote[p]) else SlotAt(s, q)
  {
    PulledSlot(env, Flagged(s, p, flagged), p, q);
  }

  lemma PushSlot(env: Env, s: State, p: Path, flagged: bool, q: Path)
    requires !env.dryRun && p in s.local
    ensures SlotAt(Perform(env, s, p, Push(flagged)), q) == if q == p then LiveSlot(env, s.local[p]) else SlotAt(s, q)
  {
    PushedSlot(env, Flagged(s, p, flagged), p, q);
  }

  lemma CopySlot(env: Env, s: State, p: Path, act: Action, q: Path)
    requires !env.dryRun && Possible(s, p, act) && (act.Pull? || act.Push? || act.WriteMerged?)
    ensures SlotAt(Perform(env, s, p, act), q) ==
            if q == p then AfterAction(env, CellAt(env, s, p), act) else SlotAt(s, q)
  {
    match act {
      case Pull(flagged) => PullSlot(env, s, p, flagged, q);
      case Push(flagged) => PushSlot(env, s, p, flagged, q);
      case WriteMerged(content) => WrittenSlot(env, s, p, content, q);
    }
  }

  /** What one action does to any path. */
  lemma PerformSlot(env: Env, s: State, p: Path, act: Action, q: Path)
    requires !env.dryRun && Possible(s, p, act)
    ensures SlotAt(Perform(env, s, p, act), q) ==
            if q == p then AfterAction(env, CellAt(env, s, p), act)
            else if act.Quarantine? && q == Sidecar(p, env.stamp) then LiveSlot(env, act.content)
            else SlotAt(s, q)
  {
    if act.Quarantine? {
      QuarantineSlot(env, s, p, act.content, q);
    } else if InPlace(act) {
      InPlaceSlot(env, s, p, act, q);
    } else {
      CopySlot(env, s, p, act, q);
    }
  }

  lemma ChoiceFits(env: Env, c: Cell)
    requires Faithful(c)
    ensures var act := Choose(env, c);
            && (act.Pull? || act.Quarantine? ==> c.theirs.Some?)
            && (act.Push? ==> c.ours.Some?)
            && (act.DropLocal? ==> c.theirs.None?)
            && (act.DropRemote? ==> c.ours.None?)
            && !act.Fail?
            && (Recreated(c) ==> act != Keep && act != Forget)
  {
  }

  /** What deciding p does to any path q. */
  lemma StepSlot(env: Env, s: State, p: Path, q: Path)
    requires !env.dryRun && Faithful(CellAt(env, s, p))
    ensures var act := Choose(env, CellAt(env, s, p));
            SlotAt(Step(env, s, p), q) ==
            if q == p then After(env, CellAt(env, s, p))
            else if act.Quarantine? && q == Sidecar(p, env.stamp) then LiveSlot(env, act.content)
            else SlotAt(s, q)
  {
    var c := CellAt(env, s, p);
    ChoiceFits(env, c);
    PerformSlot(env, ClearedTomb(s, p, c), p, Choose(env, c), q);
  }

  // --- the whole loop ---

  /** The loop's state at a path it has not reached is still the one it started from. */
  lemma CellUnchanged(env: Env, s: State, t: State, p: Path)
    requires Covers(s.blobs, s.files) && Grown(s.blobs, t.blobs) && SlotAt(t, p) == SlotAt(s, p)
    ensures CellAt(env, t, p) == CellAt(env, s, p)
  {
    assert Get(t.files, p) == Get(s.files, p);
    assert p in s.files ==> p in t.files && t.files[p] == s.files[p] && s.files[p].hash in s.blobs;
  }

  lemma {:induction false} LoopGrows(env: Env, s: State, paths: seq<Path>)
    ensures Grown(s.blobs, Loop(env, s, paths).blobs)
    ensures !env.dryRun && Covers(s.blobs, s.files) ==>
              Covers(Loop(env, s, paths).blobs, Loop(env, s, paths).files)
  {
    if paths != [] {
      var init := paths[..|paths| - 1];
      LoopGrows(env, s, init);
      StepGrows(env, Loop(env, s, init), paths[|paths| - 1]);
    }
  }

  /** Every path ends as its own decision on the starting state says. */
  lemma {:induction false} LoopSlot(env: Env, s: State, paths: seq<Path>, q: Path)
    requires Ready(env, s, paths)
    ensures SlotAt(Loop(env, s, paths), q) == FinalSlot(env, s, paths, q)
    decreases |paths|, if q in paths then 1 else 0
  {
    if paths != [] {
      var n := |paths| - 1;
      var init, p := paths[..n], paths[n];
      var t := Loop(env, s, init);
      PrefixReady(env, s, paths, n);
      LoopSlot(env, s, init, p);
      LoopSlot(env, s, init, q);
      LoopGrows(env, s, init);
      NotReached(env, s, paths);
      CellUnchanged(env, s, t, p);
      ReadyCell(env, s, paths, p);
      StepSlot(env, t, p, q);
      FinalSlotStep(env, s, paths, q);
    }
  }

  lemma PrefixReady(env: Env, s: State, paths: seq<Path>, n: nat)
    requires Ready(env, s, paths) && n <= |paths|
    ensures Ready(env, s, paths[..n])
  {
  }

  lemma NotReached(env: Env, s: State, paths: seq<Path>)
    requires Ready(env, s, paths) && paths != []
    ensures var n := |paths| - 1;
            FinalSlot(env, s, paths[..n], paths[n]) == SlotAt(s, paths[n])
  {
    var init, p := paths[..|paths| - 1], paths[|paths| - 1];
    assert forall x :: x in init ==> x in paths;
    assert forall x :: !SidecarOf(env, s, init, p, x);
  }

  lemma FinalSlotStep(env: Env, s: State, paths: seq<Path>, q: Path)
    requires Ready(env, s, paths) && paths != []
    ensures var n := |paths| - 1; var init, p := paths[..n], paths[n]; var act := Choose(env, CellAt(env, s, p));
            FinalSlot(env, s, paths, q) ==
            if q == p then After(env, CellAt(env, s, p))
            else if act.Quarantine? && q == Sidecar(p, env.stamp) then LiveSlot(env, act.content)
            else FinalSlot(env, s, init, q)
  {
    var n := |paths| - 1;
    var init, p := paths[..n], paths[n];
    assert paths == init + [p];
    assert forall x :: x in paths <==> x in init || x == p;
    if q !in paths {
      if SidecarOf(env, s, paths, q, p) {
        OneOwner(env, s, paths, q, p);
      } else if x :| SidecarOf(env, s, init, q, x) {
        assert SidecarOf(env, s, paths, q, x);
        OneOwner(env, s, paths, q, x);
        OneOwner(env, s, init, q, x);
      } else {
        forall x ensures !SidecarOf(env, s, paths, q, x) {
          assert !SidecarOf(env, s, init, q, x);
        }
      }
    }
  }

  lemma OneOwner(env: Env, s: State, paths: seq<Path>, q: Path, p: Path)
    requires SidecarOf(env, s, paths, q, p) && q !in paths
    ensures FinalSlot(env, s, paths, q) == LiveSlot(env, Choose(env, CellAt(env, s, p)).content)
  {
    forall x | SidecarOf(env, s, paths, q, x) ensures x == p {
      SidecarInjective(x, p, env.stamp);
    }
  }

  /** A listed path ends as its own decision says. */
  lemma LoopHere(env: Env, s: State, paths: seq<Path>, p: Path)
    requires Ready(env, s, paths) && p in paths
    ensures SlotAt(Loop(env, s, paths), p) == After(env, CellAt(env, s, p))
    ensures Faithful(CellAt(env, s, p))
  {
    LoopSlot(env, s, paths, p);
    ReadyCell(env, s, paths, p);
  }
}
