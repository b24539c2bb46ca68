/**
 * The per-path decision of a worktree run, as policy (Choose) and effect (Perform)
 * (internal/runner/worktree.go, lines 126-391).
 */
module Decision {
  import opened Options
  import opened Ledger
  import opened BlobStore
  import opened Merge

  type Tree = map<Path, Content>
  type Snapshot = map<Path, Hash>

  /** What stays fixed during one run: the fields of wtReconciler that decide only reads. */
  datatype Env = Env(
    localSnap: Snapshot, remoteSnap: Snapshot,
    gen: int, cursor: int, stamp: string, dryRun: bool, noMerge: bool)

  /** What a run changes: both replicas, the hub's blobs, and the ledger in memory. */
  datatype State = State(
    local: Tree, remote: Tree, blobs: Blobs,
    files: map<Path, FileEntry>, tombs: map<Path, Tombstone>, conflicts: seq<Path>)

  /** Everything a decision looks at: hashes, records, contents and the merge base. */
  datatype Cell = Cell(
    a: Hash, b: Hash, entry: Option<FileEntry>, tomb: Option<Tombstone>,
    ours: Option<Content>, theirs: Option<Content>, base: Option<Content>)

  datatype Action =
    | Keep
    | Forget
    | Adopt(content: Content)
    | Pull(flagged: bool)
    | Push(flagged: bool)
    | DropLocal
    | DropRemote
    | WriteMerged(content: Content)
    | Quarantine(content: Content)
    | Fail(flagged: bool)

  function HashOf(snap: Snapshot, p: Path): Hash {
    if p in snap then snap[p] else NoHash
  }

  /** No NUL byte in the first 8000 bytes. */
  predicate IsText(s: Content) {
    forall i :: 0 <= i < |s| && i < 8000 ==> s[i] != '\0'
  }

  function Sidecar(p: Path, stamp: string): Path {
    p + ".mergefail." + stamp
  }

  function BaseOf(s: State, p: Path): Option<Content> {
    if p in s.files then Get(s.blobs, s.files[p].hash) else None
  }

  function CellAt(env: Env, s: State, p: Path): Cell {
    Cell(HashOf(env.localSnap, p), HashOf(env.remoteSnap, p), Get(s.files, p), Get(s.tombs, p),
         Get(s.local, p), Get(s.remote, p), BaseOf(s, p))
  }

  /** The ledger's hash for the path, the common ancestor of the decision. */
  function Known(c: Cell): Hash {
    if c.entry.Some? then c.entry.value.hash else NoHash
  }

  predicate Buried(c: Cell) {
    c.tomb.Some? && Known(c) == NoHash
  }

  /** The deletion is recorded and one side still holds the version it recorded. */
  predicate Stale(c: Cell) {
    && Buried(c) && c.a != c.b
    && (  (c.b == NoHash && c.a == c.tomb.value.lastHash)
       || (c.a == NoHash && c.b == c.tomb.value.lastHash))
  }

  /** The deletion is recorded but a side holds something else: the tombstone is cleared. */
  predicate Recreated(c: Cell) {
    Buried(c) && !(c.a == NoHash && c.b == NoHash) && !Stale(c)
  }

  function Choose(env: Env, c: Cell): Action {
    if Buried(c) && c.a == NoHash && c.b == NoHash then Keep
    else if Stale(c) then if c.b == NoHash then DropLocal else DropRemote
    else ChooseLive(env, c)
  }

  /** The decision once the tombstone guard has been passed. */
  function ChooseLive(env: Env, c: Cell): Action {
    if c.a == c.b then Converged(c)
    else if c.a == Known(c) then
      if c.b == NoHash then DropLocal else PullFrom(env, c, false)
    else if c.b == Known(c) then
      if c.a != NoHash then PushFrom(env, c, false)
      else if c.entry.Some? && c.entry.value.gen > env.cursor then PullFrom(env, c, false)
      else DropRemote
    else Diverged(env, c)
  }

  function PullFrom(env: Env, c: Cell, flagged: bool): Action {
    if c.theirs.None? && !env.dryRun then Fail(flagged) else Pull(flagged)
  }

  function PushFrom(env: Env, c: Cell, flagged: bool): Action {
    if c.ours.None? && !env.dryRun then Fail(flagged) else Push(flagged)
  }

  function Converged(c: Cell): Action {
    if c.a == NoHash then (if c.entry.Some? then Forget else Keep)
    else if c.a == Known(c) then Keep
    else if c.theirs.None? then Fail(false)
    else Adopt(c.theirs.value)
  }

  function Diverged(env: Env, c: Cell): Action {
    if c.a == NoHash then PullFrom(env, c, true)
    else if c.b == NoHash then PushFrom(env, c, true)
    else if c.ours.None? || c.theirs.None? then Fail(false)
    else EditsOf(env, c)
  }

  function EditsOf(env: Env, c: Cell): Action
    requires c.ours.Some? && c.theirs.Some?
  {
    var merged := MergedBy(env, c);
    if merged.Some? then WriteMerged(merged.value) else Quarantine(c.ours.value)
  }

  /** The clean three-way merge of the cell, if the run may and can make one. */
  function MergedBy(env: Env, c: Cell): Option<Content>
    requires c.ours.Some? && c.theirs.Some?
  {
    if !env.noMerge && Known(c) != NoHash && IsText(c.ours.value) && IsText(c.theirs.value) && c.base.Some? then
      var r := MergeOf(c.base.value, c.ours.value, c.theirs.value);
      if r.clean then Some(r.merged) else None
    else None
  }

  // --- effects ---

  function Recorded(env: Env, s: State, p: Path, content: Content): State {
    s.(blobs := if env.dryRun then s.blobs else WithBlob(s.blobs, Sum(content), content),
       files := s.files[p := FileEntry(Sum(content), env.gen)],
       tombs := s.tombs - {p})
  }

  function Entombed(env: Env, s: State, p: Path): State {
    s.(files := s.files - {p},
       tombs := s.tombs[p := Tombstone(env.gen, if p in s.files then s.files[p].hash else NoHash)])
  }

  function WrittenBoth(env: Env, s: State, p: Path, content: Content): State {
    if env.dryRun then s
    else Recorded(env, s.(local := s.local[p := content], remote := s.remote[p := content]), p, content)
  }

  function PulledAt(env: Env, s: State, p: Path): State {
    if env.dryRun || p !in s.remote then s
    else Recorded(env, s.(local := s.local[p := s.remote[p]]), p, s.remote[p])
  }

  function PushedAt(env: Env, s: State, p: Path): State {
    if env.dryRun || p !in s.local then s
    else Recorded(env, s.(remote := s.remote[p := s.local[p]]), p, s.local[p])
  }

  function Flagged(s: State, p: Path, flagged: bool): State {
    if flagged then s.(conflicts := s.conflicts + [p]) else s
  }

  function Perform(env: Env, s: State, p: Path, act: Action): State {
    match act
    case Keep => s
    case Fail(flagged) => Flagged(s, p, flagged)
    case Forget => s.(files := s.files - {p})
    case Adopt(content) => Recorded(env, s, p, content)
    case Pull(flagged) => PulledAt(env, Flagged(s, p, flagged), p)
    case Push(flagged) => PushedAt(env, Flagged(s, p, flagged), p)
    case DropLocal => Entombed(env, s.(local := s.local - {p}), p)
    case DropRemote => Entombed(env, s.(remote := s.remote - {p}), p)
    case WriteMerged(content) => WrittenBoth(env, s, p, content)
    case Quarantine(content) =>
      PulledAt(env, WrittenBoth(env, Flagged(s, p, true), Sidecar(p, env.stamp), content), p)
  }

  function ClearedTomb(s: State, p: Path, c: Cell): State {
    if Recreated(c) then s.(tombs := s.tombs - {p}) else s
  }

  lemma LiveIgnoresTomb(env: Env, c: Cell)
    ensures ChooseLive(env, c.(tomb := None)) == ChooseLive(env, c)
  {
    var c' := c.(tomb := None);
    assert Known(c') == Known(c) && Converged(c') == Converged(c);
    if c.ours.Some? && c.theirs.Some? {
      assert MergedBy(env, c') == MergedBy(env, c);
    }
    assert Diverged(env, c') == Diverged(env, c);
  }

  lemma CellWithoutTomb(env: Env, s: State, p: Path)
    ensures CellAt(env, s.(tombs := s.tombs - {p}), p) == CellAt(env, s, p).(tomb := None)
  {
  }

  /** One path decided and acted on. */
  function Step(env: Env, s: State, p: Path): State {
    var c := CellAt(env, s, p);
    Perform(env, ClearedTomb(s, p, c), p, Choose(env, c))
  }

  /** A failed decision changes no replica, blob or entry: at most a tombstone goes and a flag comes. */
  lemma FailureIsClean(env: Env, s: State, p: Path)
    requires Choose(env, CellAt(env, s, p)).Fail?
    ensures var t := Step(env, s, p);
            && t.local == s.local && t.remote == s.remote && t.blobs == s.blobs && t.files == s.files
            && (t.tombs == s.tombs || t.tombs == s.tombs - {p})
            && (t.conflicts == s.conflicts || t.conflicts == s.conflicts + [p])
  {
    FailedPerform(env, ClearedTomb(s, p, CellAt(env, s, p)), p, Choose(env, CellAt(env, s, p)));
  }

  lemma FailedPerform(env: Env, s: State, p: Path, act: Action)
    requires act.Fail?
    ensures Perform(env, s, p, act) == Flagged(s, p, act.flagged)
  {
  }

  /** The reconcile loop over a list of paths. */
  function Loop(env: Env, s: State, paths: seq<Path>): State {
    if paths == [] then s
    else Step(env, Loop(env, s, paths[..|paths| - 1]), paths[|paths| - 1])
  }
}
