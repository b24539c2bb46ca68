/** The file operations of a decision, one by one (internal/runner/worktree.go, lines 258-346). */
module Trails {
  import opened Ledger
  import opened BlobStore
  import opened Decision

  /** What is on the disks of client and hub: the rest of a State is in memory until it is saved. */
  datatype Files = Files(local: Tree, remote: Tree, blobs: Blobs)

  function FilesOf(s: State): Files {
    Files(s.local, s.remote, s.blobs)
  }

  function RecordTrail(env: Env, s: State, content: Content): seq<Files> {
    if env.dryRun then [] else [Files(s.local, s.remote, WithBlob(s.blobs, Sum(content), content))]
  }

  function PullTrail(env: Env, s: State, p: Path): seq<Files> {
    if env.dryRun || p !in s.remote then []
    else
      var t := s.(local := s.local[p := s.remote[p]]);
      [FilesOf(t)] + RecordTrail(env, t, s.remote[p])
  }

  function PushTrail(env: Env, s: State, p: Path): seq<Files> {
    if env.dryRun || p !in s.local then []
    else
      var t := s.(remote := s.remote[p := s.local[p]]);
      [FilesOf(t)] + RecordTrail(env, t, s.local[p])
  }

  function BothTrail(env: Env, s: State, p: Path, content: Content): seq<Files> {
    if env.dryRun then []
    else
      var t := s.(local := s.local[p := content]);
      var u := t.(remote := s.remote[p := content]);
      [FilesOf(t), FilesOf(u)] + RecordTrail(env, u, content)
  }

  function QuarantineTrail(env: Env, s: State, p: Path, content: Content): seq<Files> {
    BothTrail(env, s, Sidecar(p, env.stamp), content)
    + PullTrail(env, WrittenBoth(env, s, Sidecar(p, env.stamp), content), p)
  }

  /** What the disks hold after each file operation of an action. */
  function Trail(env: Env, s: State, p: Path, act: Action): seq<Files> {
    match act
    case Keep | Forget | Fail(_) => []
    case Adopt(content) => RecordTrail(env, s, content)
    case Pull(_) => PullTrail(env, s, p)
    case Push(_) => PushTrail(env, s, p)
    case DropLocal => [Files(s.local - {p}, s.remote, s.blobs)]
    case DropRemote => [Files(s.local, s.remote - {p}, s.blobs)]
    case WriteMerged(content) => BothTrail(env, s, p, content)
    case Quarantine(content) => QuarantineTrail(env, s, p, content)
  }

  /** What the disks hold once some of the operations are done. */
  function FilesAfter(s: State, trail: seq<Files>, operations: nat): Files {
    if operations == 0 || trail == [] then FilesOf(s)
    else trail[(if operations <= |trail| then operations else |trail|) - 1]
  }

  /** What the disks hold after each file operation of a loop. */
  function LoopTrail(env: Env, s: State, paths: seq<Path>): seq<Files> {
    if paths == [] then []
    else
      var n := |paths| - 1;
      var t := Loop(env, s, paths[..n]);
      LoopTrail(env, s, paths[..n]) + Trail(env, t, paths[n], Choose(env, CellAt(env, t, paths[n])))
  }

  /** The memory does not matter to the disks. */
  lemma TrailIgnoresMemory(env: Env, s: State, s': State, p: Path, act: Action)
    requires FilesOf(s) == FilesOf(s')
    ensures Trail(env, s, p, act) == Trail(env, s', p, act)
  {
    if act.Quarantine? { QuarantineIgnoresMemory(env, s, s', p, act.content); }
  }

  lemma QuarantineIgnoresMemory(env: Env, s: State, s': State, p: Path, content: Content)
    requires FilesOf(s) == FilesOf(s')
    ensures QuarantineTrail(env, s, p, content) == QuarantineTrail(env, s', p, content)
  {
    var q := Sidecar(p, env.stamp);
    assert FilesOf(WrittenBoth(env, s, q, content)) == FilesOf(WrittenBoth(env, s', q, content));
    assert BothTrail(env, s, q, content) == BothTrail(env, s', q, content);
  }

  /** After its last operation an action has done all it does to the disks. */
  lemma TrailEnds(env: Env, s: State, p: Path, act: Action)
    ensures FilesAfter(s, Trail(env, s, p, act), |Trail(env, s, p, act)|) == FilesOf(Perform(env, s, p, act))
  {
    match act {
      case Pull(flagged) => PullEnds(env, s, Flagged(s, p, flagged), p);
      case Push(flagged) => PushEnds(env, s, Flagged(s, p, flagged), p);
      case WriteMerged(content) => BothEnds(env, s, p, content);
      case Quarantine(content) => QuarantineEnds(env, s, p, content);
      case _ =>
    }
  }

  lemma PullEnds(env: Env, s: State, f: State, p: Path)
    requires FilesOf(f) == FilesOf(s)
    ensures FilesAfter(s, PullTrail(env, s, p), |PullTrail(env, s, p)|) == FilesOf(PulledAt(env, f, p))
  {
  }

  lemma PushEnds(env: Env, s: State, f: State, p: Path)
    requires FilesOf(f) == FilesOf(s)
    ensures FilesAfter(s, PushTrail(env, s, p), |PushTrail(env, s, p)|) == FilesOf(PushedAt(env, f, p))
  {
  }

  lemma BothEnds(env: Env, s: State, p: Path, content: Content)
    ensures FilesAfter(s, BothTrail(env, s, p, content), |BothTrail(env, s, p, content)|) ==
            FilesOf(WrittenBoth(env, s, p, content))
  {
  }

  lemma QuarantineEnds(env: Env, s: State, p: Path, content: Content)
    ensures var trail := QuarantineTrail(env, s, p, content);
            FilesAfter(s, trail, |trail|) == FilesOf(Perform(env, s, p, Quarantine(content)))
  {
    var q, f := Sidecar(p, env.stamp), Flagged(s, p, true);
    QuarantineIgnoresMemory(env, s, f, p, content);
    var t := WrittenBoth(env, f, q, content);
    PullEnds(env, t, t, p);
    BothEnds(env, f, q, content);
    var x, y := BothTrail(env, f, q, content), PullTrail(env, t, p);
    assert QuarantineTrail(env, s, p, content) == x + y;
    assert !env.dryRun ==> x[|x| - 1] == FilesOf(t);
  }

  // --- loops that stop inside a decision ---

  /** The state when a loop has decided k paths and done some of the next one's file operations. */
  function Interrupted(env: Env, s: State, paths: seq<Path>, k: nat, operations: nat): State {
    if k >= |paths| then Loop(env, s, paths)
    else
      var t := Loop(env, s, paths[..k]);
      var trail := Trail(env, t, paths[k], Choose(env, CellAt(env, t, paths[k])));
      var files := FilesAfter(t, trail, operations);
      t.(local := files.local, remote := files.remote, blobs := files.blobs)
  }

  lemma InterruptedPrefix(env: Env, s: State, paths: seq<Path>, last: nat, k: nat, operations: nat)
    requires k < last <= |paths|
    ensures Interrupted(env, s, paths[..last], k, operations) == Interrupted(env, s, paths, k, operations)
  {
    assert paths[..last][..k] == paths[..k] && paths[..last][k] == paths[k];
  }

  /** Whatever the disks hold during a loop, an interruption leaves. */
  lemma {:induction false} EveryStopCovered(env: Env, s: State, paths: seq<Path>, i: nat)
    requires i < |LoopTrail(env, s, paths)|
    ensures exists k: nat, n: nat ::
              k < |paths| && LoopTrail(env, s, paths)[i] == FilesOf(Interrupted(env, s, paths, k, n))
  {
    var last := |paths| - 1;
    var before := LoopTrail(env, s, paths[..last]);
    if i < |before| {
      EveryStopCovered(env, s, paths[..last], i);
      var k: nat, n: nat :|
        k < last && before[i] == FilesOf(Interrupted(env, s, paths[..last], k, n));
      InterruptedPrefix(env, s, paths, last, k, n);
    } else {
      assert LoopTrail(env, s, paths)[i] == FilesOf(Interrupted(env, s, paths, last, i - |before| + 1));
    }
  }

  predicate HalfMerged(act: Action, operations: nat) {
    act.WriteMerged? && operations == 1
  }

  predicate HalfAside(act: Action, operations: nat) {
    act.Quarantine? && 1 <= operations <= 3
  }

  /** What the replicas are after part of an action: as before it, as after all of it, or one of two halves. */
  ghost predicate PartOf(env: Env, s: State, p: Path, act: Action, operations: nat, part: Files) {
    if HalfMerged(act, operations) then part.local == s.local[p := act.content] && part.remote == s.remote
    else if HalfAside(act, operations) then
      && part.local == s.local[Sidecar(p, env.stamp) := act.content]
      && part.remote == if operations == 1 then s.remote else s.remote[Sidecar(p, env.stamp) := act.content]
    else if operations == 0 then part.local == s.local && part.remote == s.remote
    else part.local == Perform(env, s, p, act).local && part.remote == Perform(env, s, p, act).remote
  }

  lemma PartDone(env: Env, s: State, p: Path, act: Action, operations: nat)
    requires !env.dryRun && (act.Quarantine? ==> p in s.remote)
    ensures PartOf(env, s, p, act, operations, FilesAfter(s, Trail(env, s, p, act), operations))
  {
    match act {
      case Pull(flagged) => PartPulled(env, s, p, flagged, operations);
      case Push(flagged) => PartPushed(env, s, p, flagged, operations);
      case WriteMerged(content) => PartMerged(env, s, p, content, operations);
      case Quarantine(content) => PartAside(env, s, p, content, operations);
      case _ =>
    }
  }

  lemma PartPulled(env: Env, s: State, p: Path, flagged: bool, operations: nat)
    ensures PartOf(env, s, p, Pull(flagged), operations, FilesAfter(s, PullTrail(env, s, p), operations))
  {
  }

  lemma PartPushed(env: Env, s: State, p: Path, flagged: bool, operations: nat)
    ensures PartOf(env, s, p, Push(flagged), operations, FilesAfter(s, PushTrail(env, s, p), operations))
  {
  }

  lemma PartMerged(env: Env, s: State, p: Path, content: Content, operations: nat)
    requires !env.dryRun
    ensures PartOf(env, s, p, WriteMerged(content), operations,
                   FilesAfter(s, BothTrail(env, s, p, content), operations))
  {
  }

  lemma PartAside(env: Env, s: State, p: Path, content: Content, operations: nat)
    requires !env.dryRun && p in s.remote
    ensures var q := Sidecar(p, env.stamp); var act := Quarantine(content);
            var part, whole := FilesAfter(s, Trail(env, s, p, act), operations), Perform(env, s, p, act);
            && (operations == 0 ==> part == FilesOf(s))
            && (1 <= operations <= 3 ==> part.local == s.local[q := content])
            && (1 <= operations <= 3 ==> part.remote == if operations == 1 then s.remote else s.remote[q := content])
            && (operations > 3 ==> part.local == whole.local && part.remote == whole.remote)
  {
    var q := Sidecar(p, env.stamp);
    var x, t := BothTrail(env, s, q, content), WrittenBoth(env, s, q, content);
    var y := PullTrail(env, t, p);
    assert |x| == 3 && |y| == 2;
    assert Trail(env, s, p, Quarantine(content)) == x + y;
    assert y[0].local == t.local[p := t.remote[p]] && y[1].local == y[0].local;
    assert y[0].remote == t.remote && y[1].remote == t.remote;
  }

  /** Blobs were only added, each under its own hash. */
  ghost predicate Added(before: Blobs, after: Blobs) {
    Intact(after) && forall h :: h in before ==> h in after && after[h] == before[h]
  }

  ghost predicate AllAdded(before: Blobs, trail: seq<Files>) {
    forall i :: 0 <= i < |trail| ==> Added(before, trail[i].blobs)
  }

  lemma RecordAdds(env: Env, s: State, content: Content)
    requires Intact(s.blobs)
    ensures AllAdded(s.blobs, RecordTrail(env, s, content)) && Added(s.blobs, WithBlob(s.blobs, Sum(content), content))
  {
  }

  lemma PullAdds(env: Env, s: State, p: Path)
    requires Intact(s.blobs)
    ensures AllAdded(s.blobs, PullTrail(env, s, p))
  {
    if p in s.remote { RecordAdds(env, s.(local := s.local[p := s.remote[p]]), s.remote[p]); }
  }

  lemma PushAdds(env: Env, s: State, p: Path)
    requires Intact(s.blobs)
    ensures AllAdded(s.blobs, PushTrail(env, s, p))
  {
    if p in s.local { RecordAdds(env, s.(remote := s.remote[p := s.local[p]]), s.local[p]); }
  }

  lemma BothAdds(env: Env, s: State, p: Path, content: Content)
    requires Intact(s.blobs)
    ensures AllAdded(s.blobs, BothTrail(env, s, p, content)) && Added(s.blobs, WrittenBoth(env, s, p, content).blobs)
  {
    RecordAdds(env, s.(local := s.local[p := content], remote := s.remote[p := content]), content);
  }

  lemma AsideAdds(env: Env, s: State, p: Path, content: Content)
    requires Intact(s.blobs)
    ensures AllAdded(s.blobs, QuarantineTrail(env, s, p, content))
  {
    BothAdds(env, s, Sidecar(p, env.stamp), content);
    PullAdds(env, WrittenBoth(env, s, Sidecar(p, env.stamp), content), p);
  }

  /** Whatever part of an action is done, blobs are only added. */
  lemma PartGrows(env: Env, s: State, p: Path, act: Action, operations: nat)
    requires Intact(s.blobs)
    ensures Added(s.blobs, FilesAfter(s, Trail(env, s, p, act), operations).blobs)
  {
    match act {
      case Adopt(content) => RecordAdds(env, s, content);
      case Pull(_) => PullAdds(env, s, p);
      case Push(_) => PushAdds(env, s, p);
      case WriteMerged(content) => BothAdds(env, s, p, content);
      case Quarantine(content) => AsideAdds(env, s, p, content);
      case _ =>
    }
    assert AllAdded(s.blobs, Trail(env, s, p, act));
  }

  /** The hub holds the path throughout. */
  ghost predicate AllHold(trail: seq<Files>, q: Path) {
    forall i :: 0 <= i < |trail| ==> q in trail[i].remote
  }

  lemma AsideHolds(env: Env, s: State, p: Path, content: Content, q: Path)
    requires q in s.remote
    ensures AllHold(QuarantineTrail(env, s, p, content), q)
  {
    assert AllHold(BothTrail(env, s, Sidecar(p, env.stamp), content), q);
    assert AllHold(PullTrail(env, WrittenBoth(env, s, Sidecar(p, env.stamp), content), p), q);
  }

  lemma CopiesHold(env: Env, s: State, p: Path, content: Content, q: Path)
    requires q in s.remote
    ensures AllHold(PullTrail(env, s, p), q) && AllHold(PushTrail(env, s, p), q)
    ensures AllHold(BothTrail(env, s, p, content), q)
  {
  }

  /** Part of an action takes off the hub only what the action is there to take off. */
  lemma PartRemoves(env: Env, s: State, p: Path, act: Action, operations: nat, q: Path)
    requires q in s.remote && q !in FilesAfter(s, Trail(env, s, p, act), operations).remote
    ensures act.DropRemote? && q == p
  {
    if act.Quarantine? {
      AsideHolds(env, s, p, act.content, q);
    } else {
      CopiesHold(env, s, p, if act.WriteMerged? then act.content else "", q);
    }
    assert (act.DropRemote? && q == p) || AllHold(Trail(env, s, p, act), q);
  }
}
