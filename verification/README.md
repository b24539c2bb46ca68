# yggsync: a verified model of the worktree sync engine

yggsync keeps a client's tree and a hub's tree in step. A run compares both with a ledger
kept on the hub, decides every path three ways, merges texts that changed on both sides, and
saves the ledger so that a crash cannot lose it. This project models that engine in Dafny and
proves what it promises: the line merge (`internal/merge`), the reconciler
(`internal/runner/worktree.go`), the ledger and blob store (`internal/ledger`), and two
smaller pieces, the glob compiler (`internal/filter`) and the retained-copy pruner
(`internal/runner/runner.go`).

`dafny verify dfyconfig.toml` checks everything.

## How the model is built

* **Methods follow the code; functions say what it computes.** Loops, cursors, tables and
  field updates are methods and classes with the program's own steps. Each is proved equal to
  a function, and the promises are lemmas about that function.
* **Lines, Lcs, Diff3, Merge** hold the merge; `Diff3Laws`, `RegionLaws` and `MergeLaws` its laws.
  `LcsLaws` says which of several longest matches is taken, without the algorithm that takes it. The
  alignment is characterised without its algorithm: it is the only tiling of the three texts
  whose stable regions are single jointly matched lines and whose unstable regions are
  nonempty, hold no joint match and do not touch. `RegionLaws` adds that every unstable region
  was changed by somebody, and `CleanMerge` that a clean merge holds every change of both sides
  and is never the base again; `MergeExamples` computes a few merges.
* **Decision** splits a path's decision into policy (`Choose`, on hashes and records) and
  effect (`Perform`); `Reconciler` is the mutable object that carries both out, and `Trails`
  lists what its file operations leave on the disks one by one. `LoopLaws`
  proves that, for every visiting order, each path ends as its own decision on the state before
  the run says. `RunLaws`, `EditLaws`, `ChangeLaws`, `DeletionLaws`, `RestartLaws`, `StopLaws`
  (stops inside a decision), `DryRunLaws` and `SidecarLaws` (versions set aside by several
  runs) build on that.
* **LedgerStore** is the ledger's files with a crash possible between any two operations,
  including a torn temporary file, on disks whose rename replaces and on disks whose rename
  refuses. **BlobStore** is the merge-base store.
* **Worktree** is one whole run. **History** (laws in `HistoryLaws`, and in `OneClientLaws` when
  only one client runs) is any number of clients over one hub: edits on every side, runs that
  finish, and runs cut short between any two file operations of the loop, the save or the
  collection. A file operation that fails ends a run as a stop before it does. `Replay` proves that the
  program's run is that history's event.
* **OneFile** plays histories over a single file on a small board that is proved to show the
  full model; `StaleClient` tells its stories there.
* **Regex** reads regular-expression text in Go's syntax and gives its language; `Glob` emits
  such text and matches paths by it, `GlobLaws` relates it to an independent definition of the
  glob's language, and `FilterLaws` says which spellings mean the same and what whole filters do.

Abstractions: a replica is a map from path to content; a hash is `Sum(content)` or absent, so
it is collision free and never empty; times are integers; file operations are atomic, and one
that fails ends the run; snapshots are taken from the replicas as they stand, with no other writer during a
run; paths that clash as file and directory do not occur; every path in a tree passes the
filter. Whatever the environment decides is a parameter: the time stamp, how many blob
removals succeed, where a run stops.

## Where the code and its documentation differ

The model follows the code. Each difference is a lemma.

* A recorded deletion destroys any lone copy with the deleted text, even one re-created on
  purpose: `EditLaws.NoLostEditIff` gives the exact condition, `EditLaws.StaleExample` one
  input, `DeletionLaws.RenameBackLosesFile` and `DeletionLaws.RenameBackExample` the rename
  that is undone. The documentation says nothing is lost and renames are safe.
* Deletions are documented as never resurrected. A copy comes back whenever no tombstone names
  its version, exactly as `DeletionLaws.DeletionHoldsIff` says, and there are three ways to that:
  * The tombstone guard forgets which version it removed, so the next stale copy returns:
    `DeletionLaws.SecondStaleCopyReturns`; `StaleClient.DeletionUndone` is a history.
  * A path gone from both sides leaves no tombstone: `DeletionLaws.DeletionRecordedIff`;
    `StaleClient.UnrecordedDeletionUndone` is a history.
  * So a deletion whose run stops before it is saved is never recorded:
    `DeletionLaws.CutDeletionForgotten`; `StaleClient.CutDeletionUndone` is a history, and
    `StaleClient.UncutDeletionHolds` the one without the stop.
* A client that edited nothing writes its old copy over the hub, or merges it into the hub's:
  `HistoryLaws.UntouchedClientKeepsHubIff` says exactly when, `StaleClient.OldCopyUndoesEdit` and
  `StaleClient.OldCopyMergesAway` are histories. The documentation says an unchanged side gives
  way to the changed one; with a single client it does, but for stale tombstones:
  `OneClientLaws.UnchangedSideGivesWay`.
* A run reports exactly the genuine conflicts over the last agreed tree, `HistoryLaws.ReportedIff`,
  and with a single client that is what the documentation promises,
  `OneClientLaws.OnlyGenuineConflicts`. With several, a client that edited nothing is reported
  too: `HistoryLaws.UntouchedReportedIff` and, for a path it never had,
  `ChangeLaws.AbsentCopyFlaggedIff` say when; `ChangeLaws.NewClientConflictExample` is an input.
* A run stopped between the two writes of a merge and run again may end in a conflict:
  `StopLaws.StopRestart` says exactly when, `StopExample.StoppedMergeConflicts` is an input. A
  version being set aside may end up aside twice: `StopLaws.HalfAsideRestart`. Every other stop
  is harmless.
* A reset tree re-pulls safely only under a new client id, or where the cursor covers nothing.
  Under the old id a run takes what the cursor covers off the hub, and the pre-pass lets it when
  at most 10 files are tracked: `ChangeLaws.EmptiedTreeLeaves`,
  `ChangeLaws.EmptiedTreeKeepsHubIff`, `ChangeLaws.EmptiedTreeExample`. The documentation
  (README.md, line 161) says a reset client re-pulls rather than deletes.
* A dry run carries out the deletions it plans: `DryRunLaws.DryRunPureIff` and
  `DryRunLaws.DryRunExample`. The documentation says neither replica is touched.
* `Gen` is documented as the last content change; `ChangeLaws.RenumberedIff` says exactly when it
  rises although the content stays, `ChangeLaws.FreshPullRenumbers` is the case. One
  consequence is `StaleClient.RenumberingUndoesDeletion`: after another client's first pull, the
  author's own deletion is taken for a file it never had.
* Saving over a torn primary discards the only good backup: `LedgerStore.CrashSafeIff` and
  `LedgerStore.TornPrimaryLosesBackup`.
* A pruned file's content is on the remote only if it was copied or already equal; size and
  time alone confirm it: `RetainedCopy.Job.RunRetainedCopy` and, at one input,
  `RetainedCopy.PruneLosesText`.

## Model

| member | source | states |
|---|---|---|
| Lines.SplitLines | internal/merge/merge.go:230-246 | the lines join back to the text, and only the last may lack its newline |
| Lines.JoinSplits | internal/merge/merge.go:228-246 | every list of well-formed lines is recovered from its joined text: no other split exists |
| Lcs.MatchIndex | internal/merge/merge.go:147-179 | the table-driven trace is a non-crossing match of equal lines, and no common subsequence is longer |
| Lcs.MatchOptimal | internal/merge/merge.go:145-179 | the match map has the table's length and beats every common subsequence of any two texts |
| Lcs.FillTable | internal/merge/merge.go:150-164 | the table holds the longest-common-subsequence length of every pair of suffixes |
| LcsLaws.MatchLeftmost | internal/merge/merge.go:155-178 | of all longest common subsequences the match takes, at every place, the earliest line of ours or theirs |
| LcsLaws.MatchDetermined | internal/merge/merge.go:147-179 | the match is the only listing of pairs that is longest, leftmost in ours or theirs, and keeps the rule for base: the first equal base line where no line is passed over, else the last from which as many matches can be had |
| Diff3.NextSyncPoint | internal/merge/merge.go:115-124 | the forward scan stops at the first acceptable match or at all three ends |
| Diff3.Diff3Loop | internal/merge/merge.go:82-110 | the cursor loop, which may leave the base cursor where it is, ends and emits the aligned regions in order |
| Diff3.Resolve | internal/merge/merge.go:126-143 | a region conflicts exactly when both sides differ from base and from each other; otherwise every changed side's text wins |
| Diff3Laws.SyncFirst | internal/merge/merge.go:112-124 | the position test never turns down a joint match |
| Diff3Laws.AlignmentUnique | internal/merge/merge.go:74-110 | no other tiling has the alignment's shape |
| Diff3Laws.AlignmentExact | internal/merge/merge.go:74-124 | for all texts: the regions partition base, ours and theirs, stable lines are exactly the joint matches, the cut is unique, and conflicts number at most joint matches plus one |
| Diff3Laws.ChunksSwap | internal/merge/merge.go:78-143 | swapping ours and theirs swaps the sides of each chunk and nothing else |
| RegionLaws.NoIdleRegion | internal/merge/merge.go:96-107 | every unstable region was changed by at least one side, so resolveChunk's first case is never taken |
| Merge.WriteMarkerBlock | internal/merge/merge.go:181-214 | a conflict block reads, in this order: the ours marker, ours, the base marker, base, the middle marker, theirs, the end marker, each slice ended by a newline |
| Merge.Merge | internal/merge/merge.go:33-64 | the method computes MergeOf: short cuts, alignment, rendering and conflict count |
| MergeLaws.LineBoundaries | internal/merge/merge.go:50-61 | splitting the result gives back exactly the chunks' lines, so no two lines are glued and every marker is a line of its own |
| MergeLaws.MergeSymmetric | internal/merge/merge.go:33-63 | swapping ours and theirs changes neither the verdict, nor the count, nor a clean result |
| MergeLaws.ShortCutsSound | internal/merge/merge.go:34-42 | the three short cuts give what the full computation gives, for all texts |
| CleanMerge.EditsNeverCancel | internal/merge/merge.go:33-63 | for all texts: a clean merge is the base exactly when neither side changed it |
| CleanMerge.BothEditsKept | internal/merge/merge.go:50-143 | for all texts: in a clean merge every region a side changed stands at its place with that side's lines |
| CleanMerge.ConflictsCounted | internal/merge/merge.go:50-63 | the conflict count is the number of regions both sides changed differently, and the merge is clean exactly when there are none |
| MergeExamples.LaggingMerge | internal/merge/merge.go:33-63 | for any three lines: merging an old copy over a newer base drops the line the base had gained |
| MergeExamples.MergeDoesNotHold | internal/merge/merge.go:33-63 | for any two lines: a clean merge that conflicts when it is merged with theirs again |
| LedgerStore.Store.Load | internal/ledger/ledger.go:101-120 | the primary, else the backup, else an empty ledger; unreadable only with a torn primary and no backup |
| LedgerStore.LoadCases | internal/ledger/ledger.go:101-120 | a readable primary counts whatever the backup is, then a readable backup, then a missing primary is an empty hub; anything else is unreadable |
| LedgerStore.Store.Save | internal/ledger/ledger.go:143-172 | succeeds through the same states whether rename replaces or refuses: each rename finds its target absent |
| LedgerStore.CrashSafeIff | internal/ledger/ledger.go:139-172 | every crash point of Save loads as the old or the new ledger exactly when the primary was readable or absent |
| LedgerStore.TornPrimaryLosesBackup | internal/ledger/ledger.go:160-166 | from a torn primary a crash leaves an empty ledger where a backup was |
| LedgerStore.RegisterExact | internal/ledger/ledger.go:98-172 | after any saves, each cut short anywhere, Load returns the last ledger that reached its final rename |
| BlobStore.Store.PutBlob | internal/ledger/ledger.go:191-197 | an existing blob is kept, a missing one is stored |
| BlobStore.Store.GCBlobs | internal/ledger/ledger.go:209-233 | only unreferenced blobs go; all of them unless a removal fails |
| BlobStore.PutKeepsBases | internal/ledger/ledger.go:191-197 | after a put every ledger entry, and the new one, still has its base |
| BlobStore.GCKeepsBases | internal/ledger/ledger.go:209-233 | collection, complete or cut short, keeps every base; a complete one leaves exactly the ledger's hashes |
| Reconciler.WtReconciler.Decide | internal/runner/worktree.go:141-198 | one path: guard, convergence, one-sided and two-sided changes, with their effect on replicas, blobs, records and conflicts, also when a file it must read is missing, and the file operations it takes |
| Reconciler.WtReconciler.GuardTombstone | internal/runner/worktree.go:153-168 | both absent: nothing; a stale lone copy is deleted; anything else clears the tombstone and is decided further |
| Decision.FailureIsClean | internal/runner/worktree.go:141-287 | a decision that fails for want of a file changes no replica, blob or entry |
| Reconciler.WtReconciler.DecideConverged | internal/runner/worktree.go:200-216 | equal sides: forget, keep or record |
| Reconciler.WtReconciler.ResolveDivergence | internal/runner/worktree.go:218-254 | delete against edit keeps the edit; two edits are merged when allowed and clean, else ours goes to the sidecar and the hub's stays live |
| Reconciler.WtReconciler.RecordTombstone | internal/runner/worktree.go:348-355 | the tombstone keeps the ledger's hash, or none if the ledger had no entry |
| LoopLaws.StepSlot | internal/runner/worktree.go:141-359 | deciding one path changes that path, the sidecar of a quarantined one, and nothing else |
| LoopLaws.LoopSlot | internal/runner/worktree.go:94-98 | after the loop every path is where its own decision on the starting state puts it, whatever the order |
| RunLaws.OrderIrrelevant | internal/runner/worktree.go:94-98 | any two listings of the same paths end alike |
| RunLaws.Convergence | internal/runner/worktree.go:94-113 | both replicas are identical, the ledger is exactly their files and hashes, files and tombstones stay disjoint |
| RunLaws.Fixpoint | internal/runner/worktree.go:155-216 | on a converged state the loop changes nothing, flags nothing and plans no deletion |
| RunLaws.GuardFaithful | internal/runner/worktree.go:453-478 | the hub loses exactly the planned paths plus the tombstone guard's, and the two are disjoint |
| RunLaws.GuardBound | internal/runner/worktree.go:480-482 | a run that passes the pre-pass plans at most 10 deletions or at most half the tracked files |
| EditLaws.ConflictsReported | internal/runner/worktree.go:174-254 | a run reports exactly the paths where both sides left the ledger's version for different ones and no clean merge is allowed |
| EditLaws.TextIff | internal/runner/worktree.go:384-391 | a file is text exactly when its first 8000 characters hold no NUL |
| EditLaws.BinarySetAside | internal/runner/worktree.go:233-253 | two edits are not merged if either holds a NUL there: ours is set aside |
| EditLaws.NoLostEditIff | internal/runner/worktree.go:141-254 | every edit of a path is live, in its sidecar or, all its changes at their places, in a clean merge on both replicas, if and only if no stale tombstone covers it |
| EditLaws.StaleExample | internal/runner/worktree.go:155-160 | a concrete file that the guard destroys |
| ChangeLaws.HubChangesPropagate | internal/runner/worktree.go:153-183 | nothing edited locally: never a conflict, and both replicas end as the hub exactly when no stale tombstone is met |
| ChangeLaws.LocalChangesPropagate | internal/runner/worktree.go:153-194 | nothing edited on the hub: never a conflict, and both end as local exactly when no stale tombstone is met and the cursor covers every entry absent locally |
| ChangeLaws.HubRenamePropagates | internal/runner/worktree.go:36-37 | a rename on the hub is never a conflict, and carries over exactly when the new name's tombstone does not hold that very text |
| ChangeLaws.LocalRenamePropagates | internal/runner/worktree.go:36-37 | the same for a local rename, which also needs the old name's entry to be covered by the cursor |
| ChangeLaws.HubKeptIff | internal/runner/worktree.go:141-254 | for any path: exactly when a run leaves the hub's version as it is |
| ChangeLaws.EmptiedTreeLeaves | internal/runner/worktree.go:184-194 | an emptied client keeps of the hub exactly what its cursor does not cover, the hub's own edits and files no tombstone names; the pre-pass passes with at most 10 tracked files |
| ChangeLaws.EmptiedTreeKeepsHubIff | internal/runner/worktree.go:184-194 | over a hub as recorded, an emptied client leaves it untouched exactly when the cursor covers no entry |
| ChangeLaws.EmptiedTreeExample | internal/runner/worktree.go:184-194 | a reset tree under its old client id empties a hub |
| ChangeLaws.AbsentCopyFlaggedIff | internal/runner/worktree.go:174-231 | a tracked path absent locally is a conflict exactly when the hub was edited past the ledger, whether or not this client ever had it |
| ChangeLaws.NewClientConflictExample | internal/runner/worktree.go:174-231 | a client that has never synced reports a conflict on the hub's edit |
| ChangeLaws.RenumberedIff | internal/runner/worktree.go:188-191 | a run renumbers an entry whose content stays exactly when it pulls a recorded version this client never had |
| ChangeLaws.FreshPullRenumbers | internal/runner/worktree.go:188-191 | a version pulled only because the client never had it gets a new Gen though its content is the same |
| DeletionLaws.DeletionRecordedIff | internal/runner/worktree.go:200-205 | a tracked path that leaves the ledger gets a tombstone naming its version exactly when some side still held it |
| DeletionLaws.CutDeletionForgotten | internal/runner/worktree.go:94-113 | a deletion whose run was never saved is in no record after the next run, though an uninterrupted run records it |
| DeletionLaws.DeletionHoldsIff | internal/runner/worktree.go:153-194 | a deletion holds against a lone copy exactly when a tombstone names its version; otherwise, tombstone or none, the copy is live on both |
| DeletionLaws.GuardForgetsVersion | internal/runner/worktree.go:348-355 | after the guard acts the tombstone names no version |
| DeletionLaws.SecondStaleCopyReturns | internal/runner/worktree.go:153-168 | the next stale copy comes back on both replicas |
| DeletionLaws.RenameBackLosesFile | internal/runner/worktree.go:155-168 | rename, run, rename back, run: the file is gone under both names on both replicas |
| DeletionLaws.RenameBackExample | internal/runner/worktree.go:155-168 | that loss on a concrete two-run input, for any text and time stamps |
| Trails.EveryStopCovered | internal/runner/worktree.go:258-346 | whatever the disks hold during a loop, some stop between two file operations leaves |
| RestartLaws.RestartConfluence | internal/runner/worktree.go:78-117 | a loop stopped after any paths and run again at any time: every listed path ends as in one run, every version set aside is aside under the stamp of the run that reached it, and nothing else is there |
| RestartLaws.SameStampRestart | internal/runner/worktree.go:78-117 | at the same stamp the very trees and ledger hashes are the same |
| RestartLaws.RestartNotRefused | internal/runner/worktree.go:78-84 | the pre-pass does not newly refuse the second run |
| StopLaws.StopRestart | internal/runner/worktree.go:218-346 | a run stopped after any file operation and run again: a listed path ends as in one run exactly when the stop was not between the two writes of its merge or the merge holds when made again |
| StopLaws.HalfAsideRestart | internal/runner/worktree.go:245-253 | a run stopped while it sets a version aside: every path ends as in one run and the version is aside under both stamps |
| StopExample.StoppedMergeConflicts | internal/runner/worktree.go:289-310 | an input on which that stop turns a clean merge into a conflict |
| SidecarLaws.StampTells | internal/runner/worktree.go:248-249 | the sidecars of one path at different stamps have different names |
| SidecarLaws.SidecarTells | internal/runner/worktree.go:248-249 | a sidecar's name tells its path and its run's stamp |
| SidecarLaws.SetAsideTwice | internal/runner/worktree.go:245-253 | a version one run set aside stays on both replicas when a later run sets another version of that path aside |
| SidecarLaws.AlwaysFresh | internal/runner/worktree.go:245-253 | in a history whose runs have stamps of their own and whose edits write no sidecar names, every run finds its sidecar names unused |
| SidecarExample.BothAside | internal/runner/worktree.go:245-253 | an input: two runs in conflict on one path leave `n.md.mergefail.A` and `n.md.mergefail.B` with their versions |
| DryRunLaws.DryRunDeletes | internal/runner/worktree.go:331-346 | a dry run removes exactly the paths whose decision is a deletion |
| DryRunLaws.DryRunPureIff | internal/runner/worktree.go:258-346 | a dry run leaves both replicas alone exactly when no listed path is stale, unedited locally and gone from the hub, or a planned hub deletion |
| DryRunLaws.DryRunExample | internal/runner/worktree.go:331-346 | a dry run that empties both replicas |
| Worktree.UnionPaths | internal/runner/worktree.go:427-451 | each path of the four maps once, in sorted order |
| Worktree.BeforeIff | internal/runner/worktree.go:427-451 | that order is by the first differing character, a beginning before what it begins |
| Worktree.PlannedRemoteDeletes | internal/runner/worktree.go:455-478 | the planned hub deletions, each once |
| Worktree.LoopBacked | internal/runner/worktree.go:94-98 | a path not yet decided can still be read, so the loop never fails for want of a file |
| Worktree.Site.RunWorktree | internal/runner/worktree.go:38-124 | with the flag a run is never refused; without it exactly when the tracked paths the client had seen, now gone from it and as recorded on the hub, are more than 10 and more than half; a refused run changes nothing; any other takes both replicas through the whole loop, takes from the hub just those paths and what the guard takes and, unless dry, saves the next ledger and collects only garbage, all of it unless a removal fails; a dry one writes nothing |
| Worktree.EmptiedAllGone | internal/runner/worktree.go:78-84 | for a client emptied after it had seen everything, all tracked files count |
| Worktree.Site.Commit | internal/runner/worktree.go:107-116 | the ledger is saved before any blob is collected |
| Replay.CompletedIsNext | internal/runner/worktree.go:86-124 | what a completed run leaves is the world the history gives for that event, which is legal if its sidecar names are unused |
| Replay.RunInWorld | internal/runner/worktree.go:38-124 | in any world the invariant allows, the program's run refuses and changes nothing or is one event of the history |
| History.InvAlways | internal/runner/worktree.go:58-117 | over every history of clients, edits and runs cut short between any two file operations: sound disk, disjoint and numbered records, bases present, ledger equal to the last agreed tree, cursors covering only versions seen |
| HistoryLaws.LedgerAlwaysGood | internal/ledger/ledger.go:41-120 | in every reachable world the ledger loads, and its records are disjoint and numbered within its generation |
| HistoryLaws.TrueAncestor | internal/runner/worktree.go:238-240 | the base a run fetches is there and is the version the hub held after the last saved run of any client |
| OneClientLaws.OwnAncestor | internal/runner/worktree.go:238-240 | with a single client the base is the version that client held when its last run was saved |
| OneClientLaws.UnchangedSideGivesWay | internal/runner/worktree.go:174-198 | with a single client, a path untouched on one side ends on both as the other side has it, exactly when no stale tombstone covers it |
| OneClientLaws.OnlyGenuineConflicts | internal/runner/worktree.go:218-254 | with a single client, a run reports exactly the paths edited on both sides since its last saved run that have no clean merge |
| HistoryLaws.ReportedIff | internal/runner/worktree.go:218-254 | any clients: a run reports exactly the paths on which both sides left the last agreed version for different ones without a clean merge |
| HistoryLaws.UntouchedReportedIff | internal/runner/worktree.go:218-254 | when a client that edited nothing is reported: only after another client's run and a later hub edit |
| HistoryLaws.AgreedIsShared | internal/runner/worktree.go:107-113 | a saved run leaves client, hub and ledger at one and the same tree |
| HistoryLaws.SavedRecords | internal/runner/worktree.go:107-113 | a saved run raises the generation by one and its own cursor to it; other clients' cursors and trees stay |
| HistoryLaws.DeletionJustified | internal/runner/worktree.go:184-192 | many clients: outside the guard a run, even one cut short or dry, removes from the hub only the very version its client held when last saved |
| HistoryLaws.UntouchedClientKeepsHubIff | internal/runner/worktree.go:141-254 | what a client that edited nothing leaves on the hub, and exactly when that is what the hub had: over hubs as recorded, edited past the ledger or emptied alike |
| OneFile.BoardFaithful | internal/runner/worktree.go:38-124 | a game on the one-file board is a legal history and the board shows where that history ends |
| StaleClient.OldCopyUndoesEdit | internal/runner/worktree.go:184-194 | a five-event history from an empty hub: client one's edit reaches the hub, then client two, which never edits, puts the old version back |
| StaleClient.OldCopyMergesAway | internal/runner/worktree.go:233-249 | a six-event history: client one's added line reaches the hub, the hub is edited, and client two's old copy is merged in without that line |
| StaleClient.DeletionUndone | internal/runner/worktree.go:153-168 | three clients: a deletion is honoured, the guard removes one stale copy, and the next brings the file back |
| StaleClient.UnrecordedDeletionUndone | internal/runner/worktree.go:200-205 | a file deleted on both sides leaves no tombstone, and a client that edited nothing brings it back |
| StaleClient.CutDeletionUndone | internal/runner/worktree.go:94-113 | a deletion cut short before its save and run again is undone by a client that edited nothing |
| StaleClient.UncutDeletionHolds | internal/runner/worktree.go:153-194 | without that stop the deletion holds |
| StaleClient.RenumberingUndoesDeletion | internal/runner/worktree.go:188-191 | a client's own deletion is undone because another client's first pull renumbered the file |
| HistoryLaws.SecondRunIdle | internal/runner/worktree.go:94-123 | two runs with no edit between: the second changes no tree, entry or tombstone |
| HistoryLaws.CollectedExactly | internal/ledger/ledger.go:209-233 | after a complete collection the store is exactly the ledger's versions |
| HistoryLaws.CutShortThenFull | internal/runner/worktree.go:86-113 | in any history, a run cut short after any file operation before its commit, then run in full at any time: a path ends as in one uninterrupted run exactly under the condition of `StopLaws.StopRestart` |
| HistoryLaws.CutShortSameTrees | internal/runner/worktree.go:86-113 | outside merges and settings aside, at the same stamp, the very trees are the same |
| Glob.GlobToRegex | internal/filter/filter.go:141-183 | the index-jumping scan, classes included, writes the specified text |
| Glob.Normalize | internal/filter/filter.go:130-139 | the loop turns every run of slashes into one and leaves no double slash |
| FilterLaws.SpellingsAlike | internal/filter/filter.go:107-139 | a leading `./` or `/`, outer spaces, backslashes for slashes and a doubled slash change neither the compiled pattern nor the path |
| Glob.Compile | internal/filter/filter.go:107-121 | the matcher of the normalized pattern's compiled text, bracket classes included; an error for a blank pattern and for malformed classes |
| Glob.Match | internal/filter/filter.go:72-105 | on the normalized path and compiled patterns, the last matching rule wins; without rules a path needs an include hit, if there are includes, and no exclude hit |
| FilterLaws.IncludedNotExcluded | internal/filter/filter.go:87-105 | one include and one exclude: what lies in the one directory and not in the other |
| FilterLaws.LaterRuleWins | internal/filter/filter.go:77-85 | of a rule against one directory and a later one for another, the later wins, and the rest is allowed |
| FilterLaws.BaseCases | internal/filter/filter.go:123-128 | the base of a path: `.`, `/`, and trailing slashes do not count |
| GlobLaws.ParseEmit | internal/filter/filter.go:141-183 | the emitted text, bracket classes included, parses as Go reads it to the glob's own expression |
| GlobLaws.CompilationPreservesMeaning | internal/filter/filter.go:141-183 | that expression accepts exactly the glob's language |
| GlobLaws.CompiledMeans | internal/filter/filter.go:107-128 | a compiled pattern hits exactly what its normalized glob stands for, on the whole path or on the file name |
| GlobLaws.RangeExample | internal/filter/filter.go:165-176 | the compiled `[a-c]` accepts exactly the three one-letter names |
| GlobLaws.NamedLetters | internal/filter/filter.go:111-114 | named classes in a compiled pattern, here those of letters and digits, hold Go's characters |
| GlobLaws.StarRule | internal/filter/filter.go:159 | one star between plain texts: any characters but slashes |
| GlobLaws.QuestionRule | internal/filter/filter.go:161-162 | one question mark between plain texts: one character that is no slash |
| GlobLaws.DirectoryRule | internal/filter/filter.go:148-153 | the text compiled for a directory at any depth matches exactly the paths with that segment followed by a slash |
| GlobLaws.BasenameRule | internal/filter/filter.go:123-128 | a compiled slash-free pattern depends on the file name alone, at any depth |
| GlobLaws.ExcludedDirectory | internal/filter/filter.go:72-128 | a filter that only excludes one directory rejects exactly what lies in a directory of that name |
| RetainedCopy.RankNewest | internal/runner/runner.go:432-434 | the matches, each once, newest first |
| RetainedCopy.NominateByRule | internal/runner/runner.go:422-439 | all but Keep matches, none newer than a kept one |
| RetainedCopy.NewestSpared | internal/runner/runner.go:422-439 | the newest match of a rule is never nominated |
| RetainedCopy.NominationsCounted | internal/runner/runner.go:422-439 | a rule that keeps none nominates none; any other nominates all its matches but as many as it keeps |
| RetainedCopy.KeepLatestCandidates | internal/runner/runner.go:420-443 | the union of the rules' nominations |
| RetainedCopy.RetentionCandidates | internal/runner/runner.go:408-418 | exactly the files older than the cutoff |
| RetainedCopy.Job.CopyMissingOrChanged | internal/runner/runner.go:290-311 | remote files local lacks stay, files of equal size and time within 2 s stay, every other local file is there as local has it, and there is nothing else |
| RetainedCopy.Job.SafeDeleteIfRemoteExists | internal/runner/runner.go:342-373 | removed are exactly the candidates the remote confirms |
| RetainedCopy.Job.RunRetainedCopy | internal/runner/runner.go:149-192 | removed are exactly the files retention or a rule nominates; the remote keeps what local lacks and gains what it lacked or held otherwise; a removed file's content is there exactly when it was copied or already equal |
| RetainedCopy.PruneLosesText | internal/runner/runner.go:342-406 | an input on which a file is confirmed, pruned, and its text is on neither side |

## Left out

- `Lines.SplitLines`: text is a sequence of characters; bytes and encodings are not distinguished.
- `Worktree.Site.RunWorktree`: no file operation of it fails; what a failing one leaves is a stop of `History`. A blob torn by a crash in the middle of its write is not modelled; it would be kept by every later put.
- `RestartLaws.RestartConfluence`: Gen numbers may differ from the uninterrupted run's.
- `History.InvAlways`: runs are serialised, and a quarantined path finds its sidecar name unused, which `SidecarLaws.AlwaysFresh` derives where every run has its own time stamp; two runs in one second are not told apart.
- `GlobLaws.CompilationPreservesMeaning`: classes that are well formed by themselves and hold no `[`; a class such as `[]a]`, whose end Go sees elsewhere than the glob scan, compiles but has no meaning of its own here.
- `RetainedCopy.Job.RunRetainedCopy`: the glob of a keep-latest rule is a parameter.
- Hub lock and process lock: acquiring is a read followed by a write with stale stealing; runs are taken as serialised.
- SMB and local drivers, directory walks, symlinks, directory creation: foreign calls, replaced by maps.
- JSON and sha256: library code; of regexp only the syntax compiled globs use.
- File modes, modification times and sizes in ledger entries, UpdatedBy, DeletedBy, DeletedAt, LastSeen, the format number, logging, the conflicts note and notifications: no decision of a worktree run reads them.
- The `+` and `-` prefixes of filter rules and the text of pattern errors: string plumbing.
- `copy` and `sync` jobs beyond the shared copy loop, configuration, command line, device gate, job registration.
