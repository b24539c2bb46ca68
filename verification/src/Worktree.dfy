/** One run of a worktree job (internal/runner/worktree.go, runWorktree). */
module Worktree {
  import opened Options
  import opened Ledger
  import BlobStore
  import LedgerStore
  import opened Decision
  import opened LoopLaws
  import opened RunLaws
  import DryRunLaws
  import opened Trails
  import Reconciler

  datatype RunOptions = RunOptions(
    client: ClientId, stamp: string, dryRun: bool, noMerge: bool, allowMassDelete: bool)

  datatype Outcome =
    | Done
    | Conflicted(paths: seq<Path>)
    | Refused(deletes: nat, tracked: nat)
    | LedgerUnreadable

  function CursorOf(l: Ledger, client: ClientId): int {
    if client in l.clients then l.clients[client] else 0
  }

  function EnvOf(l: Ledger, local: Tree, remote: Tree, o: RunOptions): Env {
    Env(ScanOf(local), ScanOf(remote), l.generation + 1, CursorOf(l, o.client), o.stamp, o.dryRun, o.noMerge)
  }

  function StartOf(l: Ledger, local: Tree, remote: Tree, blobs: BlobStore.Blobs): State {
    State(local, remote, blobs, l.files, l.tombstones, [])
  }

  /** The ledger a completed run saves. */
  function NextLedger(l: Ledger, gen: int, f: State, client: ClientId): Ledger {
    Ledger(gen, f.files, f.tombs, l.clients[client := gen])
  }

  // --- no path can fail for want of a file ---

  /** What the snapshots list is still there to be read. */
  ghost predicate Backed(env: Env, s: State, p: Path) {
    (p in env.localSnap ==> p in s.local) && (p in env.remoteSnap ==> p in s.remote)
  }

  lemma BackedChoice(env: Env, s: State, p: Path)
    requires Backed(env, s, p)
    ensures !Choose(env, CellAt(env, s, p)).Fail?
  {
  }

  lemma PerformKeepsFiles(env: Env, s: State, p: Path, act: Action, q: Path)
    requires q != p
    ensures q in s.local ==> q in Perform(env, s, p, act).local
    ensures q in s.remote ==> q in Perform(env, s, p, act).remote
  {
  }

  /** Only deciding a path can remove it, so a path not yet decided can be read. */
  lemma {:induction false} LoopBacked(env: Env, s: State, paths: seq<Path>, q: Path)
    requires env.localSnap == ScanOf(s.local) && env.remoteSnap == ScanOf(s.remote) && q !in paths
    ensures Backed(env, Loop(env, s, paths), q)
  {
    if paths != [] {
      var n := |paths| - 1;
      var t := Loop(env, s, paths[..n]);
      LoopBacked(env, s, paths[..n], q);
      var c := CellAt(env, t, paths[n]);
      PerformKeepsFiles(env, ClearedTomb(t, paths[n], c), paths[n], Choose(env, c), q);
    }
  }

  // --- the pre-pass ---

  /** The order of sort.Strings. */
  predicate Before(p: Path, q: Path) {
    q != "" && (p == "" || p[0] < q[0] || (p[0] == q[0] && Before(p[1..], q[1..])))
  }

  lemma {:induction false} BeforeTotal(p: Path, q: Path)
    ensures p == q || Before(p, q) || Before(q, p)
    ensures !(Before(p, q) && Before(q, p)) && !Before(p, p)
    decreases |p|
  {
    if p != "" && q != "" {
      BeforeTotal(p[1..], q[1..]);
      BeforeTotal(p[1..], p[1..]);
      assert p == [p[0]] + p[1..] && q == [q[0]] + q[1..];
    } else if p != "" {
      BeforeTotal(p[1..], p[1..]);
    }
  }

  lemma {:induction false} BeforeTransitive(p: Path, q: Path, r: Path)
    requires Before(p, q) && Before(q, r)
    ensures Before(p, r)
    decreases |p|
  {
    if p != "" && p[0] == q[0] && q[0] == r[0] { BeforeTransitive(p[1..], q[1..], r[1..]); }
  }

  /** p is a proper beginning of q, or has the smaller character where the two first differ. */
  lemma {:induction false} BeforeIff(p: Path, q: Path)
    ensures Before(p, q) <==>
            exists i :: 0 <= i <= |p| && i < |q| && p[..i] == q[..i] && (i == |p| || p[i] < q[i])
    decreases |p|
  {
    if p == "" || q == "" {
      if q != "" { assert p[..0] == q[..0]; }
    } else if p[0] != q[0] {
      FirstDiffers(p, q);
    } else {
      BeforeIff(p[1..], q[1..]);
      SameFirst(p, q);
    }
  }

  lemma FirstDiffers(p: Path, q: Path)
    requires p != "" && q != "" && p[0] != q[0]
    ensures (exists i :: 0 <= i <= |p| && i < |q| && p[..i] == q[..i] && (i == |p| || p[i] < q[i])) <==> p[0] < q[0]
  {
    forall i | 0 < i <= |p| && i < |q| ensures p[..i] != q[..i] {
      assert p[..i][0] == p[0] && q[..i][0] == q[0];
    }
    assert p[..0] == q[..0];
  }

  lemma SameFirst(p: Path, q: Path)
    requires p != "" && q != "" && p[0] == q[0]
    ensures (exists i :: 0 <= i <= |p| && i < |q| && p[..i] == q[..i] && (i == |p| || p[i] < q[i])) <==>
            var r, t := p[1..], q[1..];
            exists i :: 0 <= i <= |r| && i < |t| && r[..i] == t[..i] && (i == |r| || r[i] < t[i])
  {
    var r, t := p[1..], q[1..];
    if i :| 0 <= i <= |p| && i < |q| && p[..i] == q[..i] && (i == |p| || p[i] < q[i]) {
      assert i > 0 && r[..i - 1] == p[..i][1..] && t[..i - 1] == q[..i][1..];
    }
    if i :| 0 <= i <= |r| && i < |t| && r[..i] == t[..i] && (i == |r| || r[i] < t[i]) {
      assert p[..i + 1] == [p[0]] + r[..i] && q[..i + 1] == [q[0]] + t[..i];
    }
  }

  ghost predicate Least(left: set<Path>, p: Path) {
    p in left && forall q :: q in left && q != p ==> Before(p, q)
  }

  lemma LeastExists(left: set<Path>)
    requires left != {}
    ensures exists p :: Least(left, p)
  {
    var p :| p in left;
    if left == {p} {
      assert Least(left, p);
    } else {
      LeastExists(left - {p});
      var m :| Least(left - {p}, m);
      BeforeTotal(p, m);
      var best := if Before(p, m) then p else m;
      forall q | q in left && q != best ensures Before(best, q) {
        if best == p && q != m { BeforeTransitive(p, m, q); }
      }
      assert Least(left, best);
    }
  }

  ghost predicate Sorted(paths: seq<Path>) {
    forall i, j :: 0 <= i < j < |paths| ==> Before(paths[i], paths[j])
  }

  lemma SortedDistinct(paths: seq<Path>)
    requires Sorted(paths)
    ensures Distinct(paths)
  {
    forall i, j | 0 <= i < j < |paths| ensures paths[i] != paths[j] {
      BeforeTotal(paths[i], paths[j]);
    }
  }

  /** The paths of the four maps, each once, in order. */
  method UnionPaths(l: Ledger, localSnap: Snapshot, remoteSnap: Snapshot) returns (paths: seq<Path>)
    ensures Sorted(paths)
    ensures forall p :: p in paths <==>
              p in l.files || p in l.tombstones || p in localSnap || p in remoteSnap
  {
    var left := l.files.Keys + l.tombstones.Keys + localSnap.Keys + remoteSnap.Keys;
    ghost var all := left;
    paths := [];
    while left != {}
      invariant Sorted(paths) && left <= all
      invariant forall p :: p in paths <==> p in all - left
      invariant forall p, q :: p in paths && q in left ==> Before(p, q)
      decreases left
    {
      LeastExists(left);
      var p :| p in left && forall q :: q in left && q != p ==> Before(p, q);
      paths := paths + [p];
      left := left - {p};
    }
  }

  method PlannedRemoteDeletes(env: Env, ghost s: State, l: Ledger, paths: seq<Path>) returns (del: seq<Path>)
    requires s.files == l.files && Distinct(paths)
    ensures forall p :: p in del <==> p in Planned(env, s, paths)
    ensures |del| == |Planned(env, s, paths)|
  {
    del := [];
    for i := 0 to |paths|
      invariant |del| == |Planned(env, s, paths[..i])|
      invariant forall p :: p in del <==> p in Planned(env, s, paths[..i])
    {
      var p := paths[i];
      var a, b := HashOf(env.localSnap, p), HashOf(env.remoteSnap, p);
      var h := if p in l.files then l.files[p].hash else NoHash;
      var removes := a != b && a != h && b == h && a == NoHash && !(p in l.files && l.files[p].gen > env.cursor);
      assert removes == PlannedAt(env, s, p);
      PlannedNext(env, s, paths, i);
      if removes {
        del := del + [p];
      }
    }
    assert paths[..|paths|] == paths;
  }

  lemma PlannedNext(env: Env, s: State, paths: seq<Path>, i: nat)
    requires Distinct(paths) && i < |paths|
    ensures Planned(env, s, paths[..i + 1]) ==
            Planned(env, s, paths[..i]) + if PlannedAt(env, s, paths[i]) then {paths[i]} else {}
    ensures paths[i] !in Planned(env, s, paths[..i])
  {
    assert paths[..i + 1] == paths[..i] + [paths[i]];
  }

  // --- the run ---

  /** What a run finds and what it leaves: both replicas, the ledger's files, the blobs. */
  datatype View = View(local: Tree, remote: Tree, disk: LedgerStore.Disk, blobs: BlobStore.Blobs)

  function CurrentOf(v: View): Ledger {
    match LedgerStore.LoadOf(v.disk)
    case Loaded(l) => l
    case Unreadable => EMPTY
  }

  function EnvIn(v: View, o: RunOptions): Env {
    EnvOf(CurrentOf(v), v.local, v.remote, o)
  }

  function StartIn(v: View): State {
    StartOf(CurrentOf(v), v.local, v.remote, v.blobs)
  }

  /** Tracked paths the client has had, now gone from it and as recorded on the hub. */
  function GoneHere(v: View, client: ClientId): set<Path> {
    var l := CurrentOf(v);
    set p | p in l.files && p !in v.local && p in v.remote && l.files[p].hash == Sum(v.remote[p])
            && l.files[p].gen <= if client in l.clients then l.clients[client] else 0
  }

  /** Hub files that a recorded deletion names and the client lacks: the tombstone guard takes them. */
  function StaleThere(v: View): set<Path> {
    var l := CurrentOf(v);
    set p | p in v.remote && p !in v.local && p !in l.files && p in l.tombstones
            && l.tombstones[p].lastHash == Sum(v.remote[p])
  }

  /** What the pre-pass counts. */
  lemma PlannedIsGone(v: View, o: RunOptions, paths: seq<Path>)
    requires Listing(StartIn(v), paths)
    ensures Planned(EnvIn(v, o), StartIn(v), paths) == GoneHere(v, o.client)
  {
    var env, s := EnvIn(v, o), StartIn(v);
    forall p ensures p in paths && PlannedAt(env, s, p) <==> p in GoneHere(v, o.client) {
      assert CellAt(env, s, p).entry == Get(CurrentOf(v).files, p);
    }
  }

  /** Beyond what the guard takes, the hub loses just those paths. */
  ghost predicate TakesGone(v: View, v': View, o: RunOptions, paths: seq<Path>) {
    BlobStore.Covers(v.blobs, CurrentOf(v).files) && FreshSidecars(EnvIn(v, o), StartIn(v), paths) ==>
      && v.remote.Keys - v'.remote.Keys == GoneHere(v, o.client) + StaleThere(v)
      && GoneHere(v, o.client) !! StaleThere(v)
  }

  lemma StaleIsThere(v: View, o: RunOptions, paths: seq<Path>)
    requires Listing(StartIn(v), paths) && BlobStore.Covers(v.blobs, CurrentOf(v).files)
    ensures GuardRemovals(EnvIn(v, o), StartIn(v), paths) == StaleThere(v)
  {
    var env, s := EnvIn(v, o), StartIn(v);
    forall p | p in v.remote ensures p in paths && (Stale(CellAt(env, s, p)) <==> p in StaleThere(v)) {
      assert CellAt(env, s, p).entry == Get(CurrentOf(v).files, p);
      assert CellAt(env, s, p).tomb == Get(CurrentOf(v).tombstones, p);
    }
  }

  lemma DryTakes(env: Env, s: State, paths: seq<Path>)
    requires DryRunLaws.Rehearsal(env, s, paths) && Listing(s, paths)
    ensures s.remote.Keys - Loop(env, s, paths).remote.Keys == Planned(env, s, paths) + GuardRemovals(env, s, paths)
    ensures Planned(env, s, paths) !! GuardRemovals(env, s, paths)
  {
    DryRunLaws.DryRunDeletes(env, s, paths);
    forall p | p in paths
      ensures Choose(env, CellAt(env, s, p)).DropRemote? <==>
              PlannedAt(env, s, p) || (Stale(CellAt(env, s, p)) && p in s.remote)
      ensures Choose(env, CellAt(env, s, p)).DropRemote? ==> p in s.remote
      ensures !(PlannedAt(env, s, p) && Stale(CellAt(env, s, p)))
    {
      DryDrops(env, s, p);
    }
  }

  lemma DryDrops(env: Env, s: State, p: Path)
    requires env.localSnap == ScanOf(s.local) && env.remoteSnap == ScanOf(s.remote)
    ensures Choose(env, CellAt(env, s, p)).DropRemote? <==>
            PlannedAt(env, s, p) || (Stale(CellAt(env, s, p)) && p in s.remote)
    ensures Choose(env, CellAt(env, s, p)).DropRemote? ==> p in s.remote
    ensures !(PlannedAt(env, s, p) && Stale(CellAt(env, s, p)))
  {
  }

  lemma CompletedTakes(
      v: View, v': View, o: RunOptions, removals: nat, collected: bool, paths: seq<Path>, gone: set<Hash>)
    requires Completed(v, v', o, removals, collected, paths, gone) && Distinct(paths) && Listing(StartIn(v), paths)
    ensures TakesGone(v, v', o, paths)
  {
    var env, s := EnvIn(v, o), StartIn(v);
    if BlobStore.Covers(v.blobs, CurrentOf(v).files) && FreshSidecars(env, s, paths) {
      PlannedIsGone(v, o, paths);
      StaleIsThere(v, o, paths);
      if o.dryRun { DryTakes(env, s, paths); } else { GuardFaithful(env, s, paths); }
    }
  }

  /** Local files that are as recorded or named by a recorded deletion, and not on the hub. */
  function GoneThere(v: View): set<Path> {
    var l := CurrentOf(v);
    set p | p in v.local && p !in v.remote
            && ((p in l.files && l.files[p].hash == Sum(v.local[p]))
                || (p !in l.files && p in l.tombstones && l.tombstones[p].lastHash == Sum(v.local[p])))
  }

  /** A dry run writes nothing; of both replicas it removes just what it has decided to delete. */
  ghost predicate TouchesNothingElse(v: View, v': View, o: RunOptions) {
    BlobStore.Covers(v.blobs, CurrentOf(v).files) ==>
      && v'.disk == v.disk && v'.blobs == v.blobs
      && v'.local == v.local - GoneThere(v) && v'.remote == v.remote - (GoneHere(v, o.client) + StaleThere(v))
  }

  lemma DropsOf(env: Env, c: Cell)
    requires c.a == HashIf(c.ours) && c.b == HashIf(c.theirs) && (c.entry.Some? ==> c.entry.value.hash != NoHash)
    ensures Choose(env, c).DropLocal? <==>
            && c.ours.Some? && c.theirs.None?
            && if c.entry.Some? then c.entry.value.hash == Sum(c.ours.value)
               else c.tomb.Some? && c.tomb.value.lastHash == Sum(c.ours.value)
    ensures Choose(env, c).DropRemote? <==>
            && c.ours.None? && c.theirs.Some?
            && if c.entry.Some? then c.entry.value.hash == Sum(c.theirs.value) && c.entry.value.gen <= env.cursor
               else c.tomb.Some? && c.tomb.value.lastHash == Sum(c.theirs.value)
  {
  }

  lemma DryDropsHere(v: View, o: RunOptions, p: Path)
    requires BlobStore.Covers(v.blobs, CurrentOf(v).files)
    ensures var act := Choose(EnvIn(v, o), CellAt(EnvIn(v, o), StartIn(v), p));
            && (act.DropLocal? <==> p in GoneThere(v))
            && (act.DropRemote? <==> p in GoneHere(v, o.client) || p in StaleThere(v))
  {
    var c := CellAt(EnvIn(v, o), StartIn(v), p);
    CellIn(v, o, p);
    DropsOf(EnvIn(v, o), c);
  }

  lemma CellIn(v: View, o: RunOptions, p: Path)
    requires BlobStore.Covers(v.blobs, CurrentOf(v).files)
    ensures var c := CellAt(EnvIn(v, o), StartIn(v), p);
            && c.entry == Get(CurrentOf(v).files, p) && c.tomb == Get(CurrentOf(v).tombstones, p)
            && c.ours == Get(v.local, p) && c.theirs == Get(v.remote, p)
            && c.a == HashIf(c.ours) && c.b == HashIf(c.theirs)
            && (c.entry.Some? ==> c.entry.value.hash != NoHash)
  {
  }

  lemma DroppedAre(v: View, o: RunOptions, paths: seq<Path>)
    requires BlobStore.Covers(v.blobs, CurrentOf(v).files) && Listing(StartIn(v), paths)
    ensures DryRunLaws.Dropped(EnvIn(v, o), StartIn(v), paths).0 == GoneThere(v)
    ensures DryRunLaws.Dropped(EnvIn(v, o), StartIn(v), paths).1 == GoneHere(v, o.client) + StaleThere(v)
  {
    forall p
      ensures p in DryRunLaws.Dropped(EnvIn(v, o), StartIn(v), paths).0 <==> p in GoneThere(v)
      ensures p in DryRunLaws.Dropped(EnvIn(v, o), StartIn(v), paths).1 <==>
              p in GoneHere(v, o.client) || p in StaleThere(v)
    {
      DryDropsHere(v, o, p);
    }
  }

  lemma CompletedDry(
      v: View, v': View, o: RunOptions, removals: nat, collected: bool, paths: seq<Path>, gone: set<Hash>)
    requires Completed(v, v', o, removals, collected, paths, gone) && Distinct(paths) && Listing(StartIn(v), paths)
    requires o.dryRun
    ensures TouchesNothingElse(v, v', o)
  {
    if BlobStore.Covers(v.blobs, CurrentOf(v).files) {
      DryRunLaws.DryRunDeletes(EnvIn(v, o), StartIn(v), paths);
      DryRunLaws.DryBlobs(EnvIn(v, o), StartIn(v), paths);
      DroppedAre(v, o, paths);
    }
  }

  /** A client emptied after it had seen everything: all tracked files count. */
  lemma EmptiedAllGone(v: View, client: ClientId)
    requires var l := CurrentOf(v); v.local == map[] && v.remote.Keys == l.files.Keys
    requires var l := CurrentOf(v); client in l.clients && forall p :: p in l.files ==>
               l.files[p].hash == Sum(v.remote[p]) && l.files[p].gen <= l.clients[client]
    ensures GoneHere(v, client) == CurrentOf(v).files.Keys
  {
  }

  /** The run is complete: both replicas are the loop's and, unless it was dry, ledger and blobs are its own. */
  ghost predicate Completed(
      v: View, v': View, o: RunOptions, removals: nat, collected: bool, paths: seq<Path>, gone: set<Hash>) {
    var f := Loop(EnvIn(v, o), StartIn(v), paths);
    && v'.local == f.local && v'.remote == f.remote
    && if o.dryRun then v'.disk == v.disk && v'.blobs == f.blobs && gone == {} && !collected
       else
         && v'.disk == LedgerStore.Saved(v.disk, NextLedger(CurrentOf(v), EnvIn(v, o).gen, f, o.client))
         && BlobStore.Collection(f.blobs, f.files, removals, collected, gone)
         && v'.blobs == f.blobs - gone
  }

  /** One client's tree and the hub it syncs with: vault tree, ledger files and blobs. */
  class Site {
    var local: Tree
    var remote: Tree
    const disk: LedgerStore.Store
    const hub: BlobStore.Store
    /** What was there after each part of each commit. */
    ghost var commits: seq<View>

    constructor (local: Tree, remote: Tree, disk: LedgerStore.Store, hub: BlobStore.Store)
      ensures this.local == local && this.remote == remote && this.disk == disk && this.hub == hub
      ensures commits == []
    {
      this.local, this.remote, this.disk, this.hub, commits := local, remote, disk, hub, [];
    }

    function Look(): View
      reads this, disk, hub
    {
      View(local, remote, disk.disk, hub.blobs)
    }

    /**
     * A run either refuses and changes nothing, or takes both replicas through the whole
     * loop; unless it is dry it then saves the ledger and collects blobs. removals bounds how
     * many blob removals succeed; collected says whether they all did, which the program logs.
     */
    method RunWorktree(o: RunOptions, removals: nat)
      returns (r: Outcome, collected: bool, ghost paths: seq<Path>, ghost gone: set<Hash>)
      modifies this, disk, hub
      ensures r.LedgerUnreadable? <==> LedgerStore.LoadOf(old(Look()).disk).Unreadable?
      ensures !r.LedgerUnreadable? ==> Sorted(paths) && Distinct(paths) && Listing(StartIn(old(Look())), paths)
      ensures o.allowMassDelete ==> !r.Refused?
      ensures !o.allowMassDelete && !r.LedgerUnreadable? ==>
                var n := |GoneHere(old(Look()), o.client)|;
                && (r.Refused? <==> n > 10 && 2 * n > |CurrentOf(old(Look())).files|)
                && (r.Refused? ==> r == Refused(n, |CurrentOf(old(Look())).files|))
      ensures r.LedgerUnreadable? || r.Refused? ==> Look() == old(Look())
      ensures r.Done? || r.Conflicted? ==>
                && Completed(old(Look()), Look(), o, removals, collected, paths, gone)
                && TakesGone(old(Look()), Look(), o, paths)
                && (o.dryRun ==> TouchesNothingElse(old(Look()), Look(), o))
      ensures r.Done? || r.Conflicted? ==>
                var conflicts := Loop(EnvIn(old(Look()), o), StartIn(old(Look())), paths).conflicts;
                r == if conflicts == [] then Done else Conflicted(conflicts)
    {
      collected, paths, gone := false, [], {};
      var loaded := disk.Load();
      if loaded.Unreadable? {
        return LedgerUnreadable, collected, paths, gone;
      }
      var l := loaded.ledger;
      var env := EnvOf(l, local, remote, o);
      var visit := UnionPaths(l, env.localSnap, env.remoteSnap);
      SortedDistinct(visit);
      PlannedIsGone(Look(), o, visit);
      paths := visit;
      if !o.allowMassDelete {
        var del := PlannedRemoteDeletes(env, StartIn(Look()), l, visit);
        if MassDelete(|del|, |l.files|) {
          return Refused(|del|, |l.files|), collected, paths, gone;
        }
      }
      r, collected, gone := Apply(o, l, visit, removals);
      CompletedTakes(old(Look()), Look(), o, removals, collected, visit, gone);
      if o.dryRun { CompletedDry(old(Look()), Look(), o, removals, collected, visit, gone); }
    }

    /** The run once nothing can stop it any more. */
    method Apply(o: RunOptions, l: Ledger, visit: seq<Path>, removals: nat)
      returns (r: Outcome, collected: bool, ghost gone: set<Hash>)
      requires l == CurrentOf(Look()) && Distinct(visit)
      modifies this, disk, hub
      ensures Completed(old(Look()), Look(), o, removals, collected, visit, gone)
      ensures var conflicts := Loop(EnvIn(old(Look()), o), StartIn(old(Look())), visit).conflicts;
              r == if conflicts == [] then Done else Conflicted(conflicts)
    {
      var env := EnvOf(l, local, remote, o);
      collected, gone := false, {};
      var wt := Reconcile(env, l, visit);
      local, remote := wt.local, wt.remote;
      if !o.dryRun {
        var next := Ledger(env.gen, wt.files, wt.tombs, l.clients[o.client := env.gen]);
        collected, gone := Commit(next, removals);
      }
      if |wt.conflicts| > 0 {
        return Conflicted(wt.conflicts), collected, gone;
      }
      r := Done;
    }

    /**
     * Saves the ledger and then collects blobs, so that the blobs of the ledger on disk are
     * there throughout; a failed collection is not an error.
     */
    method Commit(next: Ledger, removals: nat) returns (collected: bool, ghost gone: set<Hash>)
      modifies this`commits, disk, hub
      ensures var saved := old(Look()).(disk := LedgerStore.Saved(old(disk.disk), next));
              commits == old(commits) + [saved, saved.(blobs := old(hub.blobs) - gone)]
      ensures disk.disk == LedgerStore.Saved(old(disk.disk), next)
      ensures BlobStore.Collection(old(hub.blobs), next.files, removals, collected, gone)
      ensures hub.blobs == old(hub.blobs) - gone
    {
      var saved := disk.Save(next);
      commits := commits + [Look()];
      collected, gone := hub.GCBlobs(next.files, removals);
      commits := commits + [Look()];
    }

    /** The loop of runWorktree. It would stop at the first path that fails, but none can. */
    method Reconcile(env: Env, l: Ledger, paths: seq<Path>) returns (wt: Reconciler.WtReconciler)
      requires env.localSnap == ScanOf(local) && env.remoteSnap == ScanOf(remote) && Distinct(paths)
      modifies hub
      ensures fresh(wt) && wt.hub == hub
      ensures wt.View() == Loop(env, StartOf(l, local, remote, old(hub.blobs)), paths)
      ensures wt.trail == LoopTrail(env, StartOf(l, local, remote, old(hub.blobs)), paths)
    {
      ghost var s := StartOf(l, local, remote, hub.blobs);
      wt := new Reconciler.WtReconciler(env, hub, local, remote, l);
      for i := 0 to |paths|
        invariant wt.env == env && wt.hub == hub && fresh(wt)
        invariant wt.View() == Loop(env, s, paths[..i]) && wt.trail == LoopTrail(env, s, paths[..i])
      {
        assert paths[i] !in paths[..i];
        LoopBacked(env, s, paths[..i], paths[i]);
        BackedChoice(env, wt.View(), paths[i]);
        assert paths[..i + 1][..i] == paths[..i];
        ghost var before := wt.trail;
        var ok := wt.Decide(paths[i]);
        assert ok && wt.trail == before + wt.trail[|before|..];
      }
      assert paths[..|paths|] == paths;
    }
  }
}
