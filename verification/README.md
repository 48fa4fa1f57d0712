# air-drive: verification of the sync protocol

air-drive keeps a local folder and a Google Drive folder in step. Four tasks share the work: a
watcher reports what happens on disk, a poller reports what happens on Drive, a reconciler turns
both into table rows and queued operations, and a dispatcher executes the operations. They meet in
three SQLite tables, the local tree, the Drive tree and an in-memory registry of ids being written.

This project models those tasks and proves what they promise each other.

* `Tables`, `Store`, `RenameSubtree`, `Like`, `ChildStates`: the state store and the SQL it runs.
* `Disk`, `MergeMove`, `Daemon`, `World`: the local tree, Drive, the registry, and a step semantics.
  Every task is a list of atomic *acts* (one SQL statement or transaction, one file system call, one
  engine call, one registry update); between two acts any other task may run, and a crash may cut the
  rest off. The imperative methods on the classes are proved to perform exactly these lists.
* `Continuous`, `Runtime`: the reconciler and the dispatcher, branch by branch.
* `Invariants`, `Propagation`, `Arrivals`, `Departures`, `Echo`, `Redelivery`, `RedeliveryCases`,
  `Idempotence`, `Conflicts`, `Trash`, `TrashRuns`, `Quiescence`, `DiskIndex`, `RenameCrash`,
  `RemoteFolders`: what each report and event brings about, and what holds across tasks,
  interleavings, repetitions and crashes.
* `Poller`, `Feed`, `RemoteTree`, `WalkRemote`: the change feed and the two computations of paths.
* `Bootstrap`, `InitialRun`, `StartupScan`: the initial reconciliation and the scan at start-up.
* `Watch`, `DrainLoop`, `RateLimiter`, `Requests`, `Calendar`, `Timestamps`: the rename correlator, the
  retry loop, the token bucket, the loops around one request and the dates in conflict names.

Conventions: md5 is an injective digest of the bytes; the single folder mapping is implicit; symbolic
links do not occur on disk; a directory walk, the answers of Drive, clock readings, random draws and
the iteration order of hash maps and of a SELECT without ORDER BY are parameters, and every theorem
holds for all of them. MIME types are the three classes the code distinguishes: folder, native
document (with its extension and pointer body), anything else.

Where the code and its documentation disagree the model follows the code, and a lemma says exactly
when the promise holds:

* `rename_subtree` is documented to match names literally, but SQLite's LIKE folds ASCII case, so a
  sibling `Docs/` is renamed along with `docs/` and the outcome depends on the row order exactly when
  two rows compete for one free path or one is sent to a place another leaves (`OrderIndependentIff`,
  `CaseVariantsCompete`).
* An echo of the daemon's own rename is documented to be suppressed; for the shortcut of a native
  document it never is, because the extension is appended again (`ShortcutRenameIsEchoed`).
* After a crash between an engine call and the row write the echo is not always absorbed
  (`CrashBeforeFingerprint`, `CrashDuringFirstUpload`: both directions).
* The tombstone of a trashed file absorbs the watcher's echo only while it is set (`EchoDeletesIff`).
  A restore succeeds, in every order of the events, exactly when the tombstone was written before the
  restore is consumed and no echo of the removal is consumed outside that time (`RestoreSucceedsIff`).
  An echo that comes after the restore, which the watcher's debouncing makes possible, trashes the
  restored file on Drive once more (`LateEchoTrashesAgain`). A restore that comes before the removal
  always leaves a tombstone: if it fetches nothing the file is gone (`OldBytesAreGone`), and if it does
  the file comes back, an edited local copy beside it, under a row that swallows its next deletion
  (`RestoredTooEarlyIsLost`, `NewBytesAreForgotten`).
* The path cache is documented to recognise descendants after the first visit, but the rename of a
  folder leaves the entries below it as they were (`FolderChangeKeepsCacheIff`). What is forwarded is
  right exactly when the cached folder a walk ends at is still where the cache says
  (`ForwardedIsRightIff`); where it is not, the next report of a file in that folder renames the
  folder on disk back to its old place (`StaleEntryMovesFolderBack`, `RenamedParentMovesFolderBack`).
* The cursor is documented never to move past unapplied work, which holds; that it never moves back
  holds exactly when every last page with entries carries a new start token, or when polls wait for
  each other (`CursorNeverMovesBackIff`, `PatientPollsNeverMoveBack`, `FallbackMovesBack`).
* The start-up scan is documented never to overwrite a concurrent remote edit. It queues no deletion
  over one, but it uploads a file edited on both sides exactly when it lies below a directory that has
  no row and is not ignored (`ScanSparesRemoteEdits`, `DriftedBelowNewDirectory`).
* A conflict keeps both versions exactly when nothing different lies at the conflict path
  (`NothingIsLostIff`).
* The balance of rename halves holds exactly when no live tracker is reused (`BalanceIff`).

## Model

| member | source | states |
|---|---|---|
| Like.EscapeIsPerCharacter | src/state/items.rs:343-347 | the three successive replacements put exactly one escape before each metacharacter |
| Like.EscapedPrefix | src/state/items.rs:343-347 | an escaped string followed by any pattern matches the texts that begin with the string, up to ASCII case, and continue with the pattern |
| Like.SubtreePattern | src/state/items.rs:298-303 | the subtree query selects exactly the paths below the directory up to ASCII case, whatever metacharacters occur |
| ChildStates.ListChildStates | src/state/items.rs:466-503 | the result is exactly the live rows one level below the directory, each once, for any names and any row order |
| RenameSubtree.SelectClause | src/state/items.rs:299-303 | the WHERE clause as written selects the directory and everything below it |
| RenameSubtree.LoopIsOneShot | src/state/items.rs:286-340 | the delete-or-update loop computes one table read off the original one, for every order of the rows |
| RenameSubtree.RenameMeaning | src/state/items.rs:286-340 | rows outside are untouched, a row moves iff its target was free, target rows win, nothing is left under the old prefix |
| RenameSubtree.RenameLoopKeepsValid | src/state/items.rs:308-335 | no turn of the loop can break the unique index or the foreign keys, for any names |
| RenameSubtree.OrderIndependentIff | src/state/items.rs:286-340 | all row orders agree iff no two selected rows compete for one free path and none is sent to a place another one leaves |
| RenameSubtree.CaseVariantsCompete | src/state/items.rs:298-303 | a concrete table with `docs/a` and `Docs/a` on which the order decides which row survives |
| RenameSubtree.MovedRowWins | src/state/items.rs:253-278 | `set_relative_path` keeps the moved row, drops the occupant with its dependents and touches no other row |
| Store.StateDb.RenameSubtree | src/state/items.rs:286-340 | the in-place loop over the table equals the specified loop |
| Store.StateDb.SetRelativePath | src/state/items.rs:253-278 | the new table is that of `SetPath` |
| Store.StateDb.CleanupOnLocalDelete | src/reconcile/conflict.rs:104-119 | exactly the conflict records naming the path on either side are dropped |
| World.RenameRowsForAnyOrder | src/state/items.rs:299-311 | the rowid-order run stands for every order, unless rows compete |
| Invariants.EveryRunKeepsInvariants | src/state/schema.rs:74-75 | in every state of every interleaving, with writes decided on stale reads: paths are unique, operations and conflict records refer to rows, tombstones are linked file rows, skipped rows are linked |
| Invariants.RemoteIsLicensed | src/reconcile/continuous.rs:283-685 | every write of `apply_remote` is one such a run allows |
| Invariants.LocalIsLicensed | src/reconcile/continuous.rs:31-146 | every write of `apply_local` is one such a run allows |
| Invariants.ExecIsLicensed | src/daemon/runtime.rs:239-569 | every write of every dispatcher operation is one such a run allows |
| Invariants.GcKeepsInv | src/state/items.rs:426-437 | the tombstone sweep drops exactly the expired tombstones and keeps the invariants |
| Continuous.ApplyRemote | src/reconcile/continuous.rs:283-685 | the reconciler performs exactly the writes of `RemoteActs`, and fails, changing nothing, exactly where that is undefined |
| Continuous.ApplyLocal | src/reconcile/continuous.rs:31-146 | the reconciler performs exactly the writes of `LocalActs` for each watcher event |
| Runtime.Execute | src/daemon/runtime.rs:239-569 | each operation succeeds exactly when its effect says so and performs exactly its writes |
| Runtime.EnsureRemoteFolder | src/daemon/runtime.rs:575-608 | walks the segments, reusing the folder Drive lists or creating one per turn, and returns the id of the last; the first failing request ends it with what was done so far |
| RemoteFolders.EnsureTwiceIsOnce | src/daemon/runtime.rs:575-637 | after one run Drive lists and the index knows every folder on the way; a second run on that Drive creates and writes nothing and, unless a listing fails, ends at the same id |
| Daemon.GuardsNest | src/daemon/in_flight.rs:55-99 | a guard keeps its id registered while any others come and go, for this id and for others; when it is dropped exactly those are left |
| MergeMove.MergeMoveDir | src/daemon/runtime.rs:656-671 | for any order of entries the merge succeeds iff kinds agree wherever both sides have a node, ends in the overlaid tree, a failure leaves a tree from which the same move ends alike, and every call on the way is one of three micro-steps |
| MergeMove.MoveEntry | src/daemon/runtime.rs:658-668 | the same for one entry: recursion where both sides are directories, a plain rename otherwise |
| Propagation.NewFileArrives | src/reconcile/continuous.rs:629-685 | a file new on Drive ends with Drive's bytes at its path, one row that records them, and nothing else changed |
| Propagation.NewFolderArrives | src/reconcile/continuous.rs:343-391 | a folder new on Drive ends as a directory with a synced row |
| Propagation.NewNativeArrives | src/reconcile/continuous.rs:407-436 | a new native document ends as its pointer under the extended name, with a skipped row |
| Propagation.RemovalArrives | src/reconcile/continuous.rs:301-341 | after a permanent removal, or the trashing of a folder, nothing is left at or below the path and exactly that row is gone |
| Propagation.FolderMoveArrives | src/reconcile/continuous.rs:392-407 | a folder moved on Drive: every node and row below it ends at its new place, rows with a taken target excepted, and everything else stays |
| Propagation.FileMoveArrives | src/reconcile/continuous.rs:492-561 | a file renamed or moved on Drive: nothing is left at its old path, it lies at the new one with the old bytes or, if they are news, Drive's; its row keeps id and Drive id and follows; every other node and row is unchanged |
| Arrivals.DirectoryMovesAlong | src/reconcile/continuous.rs:497-534 | if the file is still in the folder the index has at its old parent path, that whole directory moves instead, on disk and in the index |
| Arrivals.EditArrives | src/reconcile/continuous.rs:566-627 | an edit on Drive of a file whose local copy is missing or the recorded one: Drive's bytes replace it and the row records them |
| Arrivals.EqualCopyIsLeft | src/reconcile/continuous.rs:586-592 | a local copy that is Drive's version already is left alone, without any write |
| Arrivals.NativeMoveArrives | src/reconcile/continuous.rs:437-455 | a native document renamed or moved on Drive: its shortcut and row move |
| Arrivals.NativeRestoreArrives | src/reconcile/continuous.rs:437-470 | a native document back from the trash: its pointer is written again and the row is live |
| Arrivals.DownloadLands | src/daemon/runtime.rs:340-365 | a download nothing stands in the way of writes Drive's bytes and records size, digest and Drive id, whether the row was linked or not |
| Arrivals.NothingHappens | src/reconcile/continuous.rs:293-341 | reports of unknown removals, of paths the index has under another id, and of what is as recorded change nothing |
| Propagation.NewFileIsUploaded | src/daemon/runtime.rs:289-337 | a file that is created, or reported changed or renamed from outside the index, ends as one Drive node with its name, parent and bytes and one linked row; the missing folders on the way are made, and nothing else is new or changed |
| Propagation.NewFolderIsUploaded | src/daemon/runtime.rs:446-460 | a new directory ends as a live folder of its name in the last folder on its way, found or made, with one linked row; only those folders are new beside it |
| StartupScan.ContentsAreQueued | src/reconcile/continuous.rs:41-57 | a directory that appears takes all it contains along: every entry without a row gets its row and its operation |
| Departures.DraftRenameIsUploaded | src/reconcile/continuous.rs:101-123 | a file renamed before its first upload goes up once, under its new name, however many uploads were queued; its row follows and none is left at the old path |
| Departures.DraftDeletionIsForgotten | src/reconcile/continuous.rs:91-94 | what is deleted before it reached Drive loses its row and its operations, and nothing else happens |
| Departures.DeletionClosesConflicts | src/reconcile/continuous.rs:67-71 | a deletion drops exactly the conflict records it is a side of, original or copy |
| Departures.UnknownDeletionIsIgnored | src/reconcile/continuous.rs:72-82 | the deletion of a path that has no row, or a tombstone, touches no row and queues nothing |
| Departures.VanishedIsIgnored | src/reconcile/continuous.rs:58-64 | what is gone again when its event is looked at leaves no trace |
| Departures.ForbiddenDeletion | src/daemon/runtime.rs:379-412 | the deletion of somebody else's file unlinks it from the user's folders and drops the row or, if that is refused too, leaves it on Drive under a skipped row; the operation is done either way |
| Departures.UnlinkedIsForgotten | src/daemon/runtime.rs:481-486 | a rename or deletion that finds its item not on Drive drops the row and nothing else |
| Departures.BlockedStaysQueued | src/daemon/runtime.rs:206-223 | an operation stays queued, with one attempt more, exactly if a refusal, a node or a folder stands in its way; then it has made directories and folders at most |
| Propagation.EditIsUploaded | src/daemon/runtime.rs:289-315 | an edited file's bytes replace those of its node under the same id, and the row records them |
| Propagation.RenameIsPropagated | src/daemon/runtime.rs:478-519 | a local rename, into folders Drive may not have yet, moves and renames the node; the row, or the whole subtree of rows, follows and the others stay |
| Propagation.DeletionIsPropagated | src/daemon/runtime.rs:367-418 | a local deletion trashes the node and drops the row |
| Echo.OwnWritesAreNeverEchoed | src/daemon/runtime.rs:289-337 | for content update, first upload, move and delete, interleaved arbitrarily with other tasks, directory renames elsewhere included: from the engine call on, at any later point, applying the write's own change writes nothing |
| Echo.EchoIsAbsorbed | src/reconcile/continuous.rs:293-296 | at each step it is the registry, the fingerprint, the path, the missing row or the row already at the destination that absorbs it |
| Echo.EditsAreWrites | src/daemon/runtime.rs:289-337 | the upload of a known file is that program |
| Echo.CreatesAreWrites | src/daemon/runtime.rs:289-337 | a first upload makes its folders and then is that program, with its start facts in place |
| Echo.MovesAreWrites | src/daemon/runtime.rs:478-519 | a remote rename makes its folders and then is that program, with its start facts in place, whatever lies at the destination |
| Echo.DeletesAreWrites | src/daemon/runtime.rs:367-418 | a remote delete is that program |
| Echo.ConsumerIsForeign | src/reconcile/continuous.rs:283-685 | the change consumer, working on other ids, is one of the tasks that may interleave, before and after the item's row is gone |
| Echo.WatcherIsForeign | src/reconcile/continuous.rs:31-146 | so is the watcher side, short of events about the item or a moving folder's destination |
| Echo.RenamesElsewhereAreForeign | src/daemon/runtime.rs:478-555 | and so is a later directory rename on either side that does not take the item along |
| Echo.ShortcutRenameIsEchoed | src/reconcile/continuous.rs:407-455 | the echo of a renamed shortcut always queues another rename |
| Echo.CrashBeforeFingerprint | src/daemon/runtime.rs:289-315 | after a crash between engine call and fingerprint the echo is absorbed iff the row had a fingerprint |
| Echo.CrashDuringFirstUpload | src/daemon/runtime.rs:316-337 | after a crash in a first upload the echo is absorbed iff the row is not linked yet or already fingerprinted |
| Draining.AgreeDrain | src/daemon/runtime.rs:101-223 | for any queue, what is queued behind an operation has no influence on what the operations before it do |
| Draining.DrainSurvives | src/state/schema.rs:99-105 | draining a stretch of the queue leaves the operations outside it exactly as they were, unless their item went |
| Idempotence.DrainLeavesIff | src/daemon/runtime.rs:135-215 | an operation in the drained stretch is still queued iff its turn ended in a failure and its item is still there |
| Redelivery.InertExec | src/daemon/runtime.rs:340-365 | an operation whose effect has already happened changes no row but a clock reading, no file and no record |
| Redelivery.SelfRename | src/state/items.rs:286-340 | renaming a directory onto itself leaves the whole table as it is |
| Redelivery.RepetitionsAreHarmless | src/daemon/mod.rs:199-234 | deliveries after the first drain to the same world, if they only queue operations that are inert by then |
| Idempotence.SettlesBehind | src/reconcile/continuous.rs:283-685 | for every kind of change, whatever is already queued: what the first delivery queues, and that later ones queue nothing else |
| Idempotence.RepeatsOnlyQueue | src/reconcile/continuous.rs:587-627 | deliveries after the first change no row and no file and open no second conflict |
| Idempotence.RedeliveryIsIdempotent | src/reconcile/continuous.rs:283-685 | whatever is already queued, delivering one change any number of times and draining gives the same rows, files and conflict records as delivering it once; operations of others may fail and stay queued |
| Conflicts.BothVersionsSurvive | src/reconcile/continuous.rs:587-627 | after conflict and download: old local bytes at the conflict path, remote bytes at the canonical one, exactly one record, every other node and row unchanged |
| Conflicts.NothingIsLostIff | src/reconcile/conflict.rs:55-99 | no version disappears iff nothing different lay at the conflict path |
| Trash.TrashThenRestore | src/reconcile/continuous.rs:320-341 | trash, drain, watcher echo, restore, drain: same row, path and Drive id, no tombstone, bytes of Drive on disk, no other row or file touched, never a remote delete |
| Trash.EchoDeletesIff | src/reconcile/continuous.rs:67-94 | the watcher's event deletes the file on Drive iff the row carries no tombstone, because it is not yet written or already cleared by a restore |
| TrashRuns.RestoreSucceedsIff | src/reconcile/continuous.rs:474-491 | for every order of removal, tombstone write, restore, any number of echoes and turns of the file's later operations, with other tasks in between and anything queued for other items: once nothing is left to do for the file, row and file are back iff the tombstone was written before the restore and every echo came while it was set |
| TrashRuns.LateEchoTrashesAgain | src/reconcile/continuous.rs:67-94 | at any moment of any run after a successful restore, the echo still under way queues a remote delete, which trashes the file on Drive and drops its row |
| TrashRuns.RestoredBeforeEcho | src/watch/debounce.rs:24-26 | wherever the story begins there is a run in which the restore comes before the echo |
| Trash.RestoredTooEarlyIsLost | src/reconcile/continuous.rs:571-573 | whatever a restore reports, if it comes before the drain the row ends as a tombstone |
| Trash.OldBytesAreGone | src/reconcile/continuous.rs:571-627 | if it fetches nothing (recorded bytes, a local copy equal to the reported ones, or no room to move an edited one aside) the local copy is removed |
| Trash.NewBytesAreForgotten | src/reconcile/continuous.rs:587-627 | in all other cases the file comes back with Drive's bytes, an edited copy moved aside, under the tombstone; its next deletion is swallowed and the sweep drops the row |
| Quiescence.EchoesDieOut | src/reconcile/continuous.rs:39-80 | from a converged world any run of echoes and dispatches, then a drain, changes no row, file, Drive node or mark and empties the queue |
| Quiescence.EchoesCallNobody | src/daemon/runtime.rs:261-287 | everything the dispatcher picks up on the way has no effect at all |
| DiskIndex.RenameKeepsAgreement | src/daemon/runtime.rs:521-555 | if live rows and disk nodes describe each other before a local rename or merge, they do afterwards, in both directions |
| RenameCrash.CrashThenRetry | src/daemon/runtime.rs:521-555 | cut off while directories are made, between any two calls of the move, or before the operation is removed, and run again, it ends in the same tree and the same tables |
| RenameCrash.MicroStepKeeps | src/daemon/runtime.rs:656-671 | each file system call of the merge leaves the rest of the move feasible and its end unchanged |
| RemoteTree.PathCache.DescendantPath | src/drive/changes.rs:308-350 | for any cache and any tree: the path is the entry of the nearest cached folder extended by the names walked, none where the walk leads nowhere or a name is unsafe, and exactly the walked folders are entered |
| RemoteTree.PathCache.AssemblePath | src/drive/changes.rs:358-402 | the path is the cached prefix extended by the walked names; each walked folder is cached with its own path, and nothing if a name is unsafe |
| RemoteTree.WalkIsRightIff | src/drive/changes.rs:308-350 | the walk finds the path the tree defines iff the entry of the nearest cached folder is current, however stale the rest is |
| RemoteTree.CoherentStays | src/drive/changes.rs:358-402 | a coherent cache finds every path and stays coherent for every lookup history |
| RemoteTree.FolderChangeKeepsCacheIff | src/drive/changes.rs:222-226 | entering a moved folder keeps the cache coherent iff no proper descendant is cached |
| RemoteTree.PathsSplitUniquely | src/drive/metadata.rs:34-41 | every path is a join of safe names and splits back into exactly those |
| WalkRemote.WalkRemote | src/reconcile/mod.rs:584-630 | the level-by-level walk finds exactly the live nodes that have a path, each once, at that path |
| WalkRemote.BothWaysAgree | src/drive/changes.rs:308-350 | the walk up through any cache places a live node where the walk down found it iff the cached folder it ends at is current (or no walk is made), and always if the cache is coherent |
| Poller.FetchChangesSince | src/drive/changes.rs:266-306 | the accumulating loop returns all pages and the token to continue from |
| Poller.FetchSucceedsIff | src/drive/changes.rs:266-306 | the tick fails iff a request fails before a page without a next token |
| Poller.FetchCoversLog | src/drive/changes.rs:266-306 | for any page split the delta is the log from the token on; the next token skips nothing, and repeats nothing iff the last page names one or is empty |
| Poller.BuildBatch | src/drive/changes.rs:168-236 | for any cache and any tree the batch holds, in feed order, the removals and the entries whose walk got somewhere, each placed with the cache the entries before it left |
| Poller.RemovalsAreForwarded | src/drive/changes.rs:186-210 | for every cache, tree and entry list, the batch reports exactly the removals of the feed but the mapped folder's, in its order |
| Poller.InScopeIsForwarded | src/drive/changes.rs:203-218 | every removal, and every entry whose parent chain leads to the mapped folder, is forwarded whatever the cache holds |
| Poller.ForwardedIsRightIff | src/drive/changes.rs:203-218 | it is forwarded as the tree places it iff the cached folder its walk ends at is current |
| Poller.CoherentTick | src/drive/changes.rs:168-236 | from a coherent cache exactly the entries in scope are forwarded, rightly placed, and the cache stays coherent |
| Poller.StaleEntryMovesFolderBack | src/reconcile/continuous.rs:515-534 | the report of an unchanged file is an echo iff its folder's entry is current, and otherwise queues the folder's rename to the stale path |
| Poller.RenamedParentMovesFolderBack | src/drive/changes.rs:222-226 | after the tick that reports a renamed folder, the next report of a file in a cached folder below it moves that folder back |
| Poller.ConsumeBatch | src/daemon/mod.rs:199-234 | a failed change does not stop the others; the cursor moves iff the whole batch applied |
| Feed.BatchIsPaired | src/drive/changes.rs:168-236 | the batch of a tick is made of the forwarded entries of its log segment, in feed order |
| Feed.BatchCoversScope | src/drive/changes.rs:168-236 | whatever Drive looks like at this poll and however stale the cache is, nothing in scope is missing from it |
| Feed.EveryChangeIsApplied | src/daemon/mod.rs:205-230 | in every run with failures, overlapping batches, crashes, a changing Drive and a cursor that moves between a tick's read and its send, every removal, and every change that has a place below the mapped folder whenever it is looked up, was applied if it lies behind the cursor |
| Feed.CursorNeverMovesBack | src/daemon/mod.rs:220-230 | with a full last page on every poll the cursor only advances, with any number of deltas on the channel |
| Feed.CursorNeverMovesBackIff | src/drive/changes.rs:297-304 | for a Drive that can answer in full: the cursor never moves back in any run iff no last page with entries lacks the new start token |
| Feed.PatientPollsNeverMoveBack | src/daemon/mod.rs:199-230 | with one delta outstanding at a time it never moves back, however the tokens fall back |
| Feed.FallbackMovesBack | src/drive/changes.rs:297-304 | a concrete run in which the token fallback moves the cursor back |
| Feed.ApplyFailsIff | src/reconcile/continuous.rs:407-436 | `apply_remote` fails iff a native document is new at a taken path, or a file was edited on both sides and a directory lies where the conflict copy has to go |
| Bootstrap.NothingIsOverwritten | src/reconcile/mod.rs:76-357 | at no moment of any attempt is a node of either side lost or changed |
| Bootstrap.FilesConverge | src/reconcile/mod.rs:181-343 | every file that is not ignored and does not differ on the two sides ends with equal bytes and a matching synced row |
| Bootstrap.DifferencesAreLeftAlone | src/reconcile/mod.rs:238-273 | a file that differs on the two sides is untouched and gets no row |
| Bootstrap.DirectoriesConverge | src/reconcile/mod.rs:110-143 | every directory of either side ends on both, with a synced row that names its folder |
| Bootstrap.NativesConverge | src/reconcile/mod.rs:145-170 | every native document ends as its pointer with a skipped row, and nothing is put on Drive for it |
| Bootstrap.NothingElseAppears | src/reconcile/mod.rs:173-343 | an ignored file is copied in neither direction and gets no row, and nothing appears that neither side had |
| Bootstrap.EndIsUnique | src/reconcile/mod.rs:76-357 | two finished passes, however interrupted, end in the same trees, ids and rows |
| Bootstrap.ParentComesFirst | src/reconcile/mod.rs:110-143 | in byte order a directory comes after its parent |
| InitialRun.Initial.ReconcileDirs | src/reconcile/mod.rs:110-143 | every directory of either side ends on both sides with a row, and the parent id is always known, so the fallback to the mapped folder is never taken |
| InitialRun.Initial.WriteShortcuts | src/reconcile/mod.rs:145-170 | every native document ends with its pointer file and skipped row |
| InitialRun.Initial.RecordCommon | src/reconcile/mod.rs:236-273 | equal files on both sides get their row, different ones none |
| InitialRun.Initial.Run | src/reconcile/mod.rs:76-357 | from any moment of an earlier attempt: whenever it stops nothing is lost; at the end everything is done and only then is the cursor set |
| InitialRun.RunUntilDone | src/reconcile/mod.rs:76-357 | any number of interrupted attempts followed by a finished one end where the first would have |
| StartupScan.ScanOfSettledFolderIsIdle | src/reconcile/mod.rs:381-498 | from a folder in step with its index the scan changes nothing, whatever Drive answers |
| StartupScan.ScanSparesRemoteEdits | src/reconcile/mod.rs:376-498 | over the whole scan: a deletion is queued only for a row Drive still matches, and a file edited on both sides is uploaded iff it lies below an untracked directory that is not ignored |
| StartupScan.DriftedBelowNewDirectory | src/reconcile/mod.rs:403-425 | a concrete folder in which the scan uploads over an edit on Drive |
| StartupScan.OfflineEditIsReplayedIff | src/reconcile/mod.rs:427-450 | an offline edit is queued iff Drive did not move on |
| StartupScan.OfflineDeleteIsReplayedIff | src/reconcile/mod.rs:466-495 | so is an offline deletion |
| StartupScan.OfflineCreationIsReplayed | src/reconcile/mod.rs:403-425 | after the scan everything new on disk that is not ignored has a row and the operation that creates it on Drive |
| StartupScan.IgnoredIsLeftAlone | src/reconcile/mod.rs:403-480 | ignored paths, missing directories, tombstones and missing pointers are left alone |
| Watch.RenameBuffer.ConvertEvent | src/watch/mod.rs:215-298 | the buffer and the emitted events after each kernel event |
| Watch.EventsAreAccountedFor | src/watch/mod.rs:215-349 | over every run each event (modified, created or deleted path, renamed pair) is emitted exactly as often as the inputs call for it: kept reports, destinations with and without a young source, sources too old |
| Watch.RenameBuffer.DrainStale | src/watch/mod.rs:304-319 | exactly the expired halves leave, each as one deletion; none older than the limit stays |
| Watch.HalvesAreConserved | src/watch/mod.rs:215-349 | over every event sequence, per path and in total: buffered halves are renamed, swept, swallowed, overwritten or still waiting, each once |
| Watch.BalanceIff | src/watch/mod.rs:236-275 | the balance without overwritten halves holds iff no live tracker is reused |
| Watch.OneRenamePerHalf | src/watch/mod.rs:247-283 | every emitted rename used up exactly one buffered half |
| Watch.OneDeletionPerSweptHalf | src/watch/mod.rs:304-319 | per path and in total, the emitted deletions are the swept halves and the removals the kernel reported |
| Watch.RenameBuffer.Reap | src/watch/mod.rs:322-349 | a turn of the reaper sweeps exactly the expired halves |
| Watch.TrailingBothIsSilent | src/watch/mod.rs:270-283 | after a To, a trailing Both with the same tracker emits nothing |
| Watch.HalvesAreMatched | src/watch/mod.rs:236-269 | two halves of one tracker within the limit become that rename, whatever else happens in between |
| Watch.LoneHalfIsDeleted | src/watch/mod.rs:304-349 | a half that stays alone becomes a deletion at the first sweep after the limit |
| DrainLoop.Dispatcher.DrainDue | src/daemon/runtime.rs:101-223 | the drain loop ends for every clock, outcome and cascade, with nothing due or the account blocked, after no more turns than attempts were left |
| DrainLoop.Dispatcher.NextDue | src/state/ops.rs:198-220 | the due operation that comes first by due time, then by id, or none iff none is due |
| DrainLoop.TurnUsesAttempts | src/daemon/runtime.rs:106-215 | every turn lowers the attempts left in the queue |
| DrainLoop.AtMostTenExecutions | src/daemon/runtime.rs:37-51 | over its whole life, across drains and concurrent enqueues, an operation is executed at most ten times |
| DrainLoop.ParkedIsNeverSelected | src/daemon/runtime.rs:106-131 | a parked operation is never selected again |
| DrainLoop.ExecutionOnlyDrops | src/daemon/runtime.rs:239-569 | no operation queues or reschedules another; it only takes some down with their items |
| DrainLoop.BackoffBounds | src/daemon/runtime.rs:674-681 | delays double up to the cap, are at least one second, and stay within a fifth from the fourth attempt on |
| DrainLoop.TurnOutcome | src/daemon/runtime.rs:106-223 | what a turn does to the queue: success removes, an authentication failure waits an hour, other failures 1, 2, 4, 8, 16, 32 and then 60 seconds within a fifth, ten failures until the year 3000; every other operation stays as it is unless its item goes |
| DrainLoop.QueuedIsDue | src/state/ops.rs:198-220 | an operation queued now makes the queue due now |
| DrainLoop.OldestFirst | src/state/ops.rs:198-220 | with due times in the order of the ids the oldest operation is selected |
| RateLimiter.Limiter.Poll | src/drive/http.rs:96-112 | a token is taken, or the exact waiting time is told |
| RateLimiter.Limiter.Acquire | src/drive/http.rs:96-112 | a lone caller sleeps at most once and is then granted |
| RateLimiter.WaiterIsGrantedIff | src/drive/http.rs:96-112 | the next poll of a refused waiter is granted iff it waited as long as it was told |
| RateLimiter.TokensStayInRange | src/drive/http.rs:96-112 | tokens stay between zero and the capacity |
| RateLimiter.GrantsAreBounded | src/drive/http.rs:96-112 | for every interleaving of waiters, grants between two grants number at most capacity plus rate times the time between them |
| RateLimiter.DriveQuota | src/drive/http.rs:53-60 | the same with the daemon's constants: 100 plus 10 per second |
| RateLimiter.BurstIsGranted | src/drive/http.rs:82-112 | from a full bucket a whole burst is granted |
| Requests.WithRetry | src/drive/http.rs:337-365 | the first answer or fatal error, or the sixth attempt, ends it; the time slept stays within a fifth of the doubling delays |
| Requests.RetriesAreShort | src/drive/http.rs:30-36 | all retries of one request together wait at most 37.2 seconds |
| Requests.ListChildren | src/drive/metadata.rs:166-204 | the loop returns all pages, or fails if a page fails or lacks its list |
| Requests.ListingIsComplete | src/drive/metadata.rs:166-204 | however the listing is paged, the result is the whole listing, in order, each child once |
| Requests.ListingSucceedsIff | src/drive/metadata.rs:166-204 | it fails iff a request fails, or a page lacks its list, before the last page |
| Calendar.CivilInverse | src/reconcile/conflict.rs:148-160 | for every day count whose year fits i32, before and after the final `y + 1`, the date is valid and its independently counted day number is the input (section 3.2.1 of ISO 8601:2004) |
| Timestamps.FormatReadsBack | src/reconcile/conflict.rs:136-160 | for the years 0000 to 9999 the stamp has the form `YYYYMMDDTHHMMSSZ`, and its digits read back as a valid date and time give the second it was made from (section 4.3.2 of ISO 8601:2004) |
| Timestamps.FormatLength | src/reconcile/conflict.rs:136-144 | sixteen characters for the years 0000 to 9999 (section 4.3.2 of ISO 8601:2004) |
| Timestamps.FormatKeepsOrder | src/reconcile/conflict.rs:136-144 | later seconds give lexicographically greater stamps |
| Timestamps.ConflictNameForms | src/reconcile/conflict.rs:34-47 | the tag goes before the last extension; a name without one, or a dotfile, gets it at its end |
| Timestamps.ConflictCopiesAreDistinct | src/reconcile/conflict.rs:34-47 | conflict names coincide iff file name and second do, and never equal the original |
| Timestamps.ConflictPathIsSibling | src/reconcile/conflict.rs:34-47 | the conflict copy lies in the same directory under a longer name, neither above nor below the original |

## Left out

- Runtime.Execute: asks that a local rename's destination is not empty and not an ancestor of its source, and that the tree is well formed; renaming a directory onto its own ancestor is not modelled.
- Idempotence.RedeliveryIsIdempotent: assumes that, when their turn comes, the change's own operations succeed and its rename has a free target without case variants, and that a tombstone was not moved; user edits in between are not covered.
- TrashRuns.RestoreSucceedsIff: Drive accepts the engine calls, each later operation of the file runs in one step; a user's edit of the file itself in between is not covered.
- Draining.AgreeDrain: a drain gives every queued operation one turn, in the order of the ids; due times, parking after ten attempts and the stop on an authentication failure are modelled in `DrainLoop` only.
- Echo.OwnWritesAreNeverEchoed: does not cover the renamed shortcut of a native document, for which it is false (`ShortcutRenameIsEchoed`).
- RemoteTree.PathCache.DescendantPath: a lookup of a parent that fails counts as out of scope, as in the code; Drive changing between two lookups of one tick is not modelled.
- InitialRun.Initial.Run: the two walks are accurate and unique per path; retries of a listing that lags behind an upload are not modelled.
- DrainLoop.Dispatcher.DrainDue: assumes the bookkeeping writes succeed; sleeping, pausing and waking are not modelled.
- The interleaving of two readers of the path cache, and of two polls sharing one bucket at the machine level: each critical section is one step.
- `migrate.rs`, the command line, OAuth, the control socket, the shell overlay's protocol, locks, logging and the rclone subprocess: I/O or wrappers.
- `watch/debounce.rs`: last event per key, so no event is promised to survive it.
- Symbolic links, ignore globs (a predicate where they matter), special files, inode numbers, JSON payloads and page sizes.
- Propagation.FileMoveArrives: asks for a free destination without case variants; at a taken one the row and node rules of `RowsMoved` and `SubtreeMoved` apply, as in `FolderMoveArrives`.
- Propagation.RenameIsPropagated: for a folder, asks that no name differs from it in ASCII case only and that it does not move above or below itself.
- Runtime.EnsureRemoteFolder: the writes to the index succeed; an INSERT that loses a race against another task is not modelled as an error of the operation.
- Real md5, `f64` rounding (arithmetic is over reals) and Drive's eventual consistency.
- The blocked flag, counters and status queries of the state tables.
