# Holt in Dafny

Holt is an embedded, copy-on-write metadata store: named trees of blob frames over one store, a write-ahead log, pipelined checkpoints, snapshots, atomic batches and an attached recovery stream. This project models that machinery and proves what it promises. Each part has an independent definition of what it should mean, and theorems over all inputs or all runs that connect the two.

## Parts

**Crash safety of the checkpoint pipeline** (`WalHistory`, `FrameTree`, `Reshape`, `CheckpointMachine`, `CheckpointInvariant`, `CheckpointStore`, `CheckpointWriters`, `CheckpointPlanner`, `CheckpointWorker`, `CheckpointFrontier`, `CrashRecovery`, `CheckpointRuns`, `DeleteRace`). A machine with nineteen kinds of steps that interleave freely: commits, part-way failures that latch the store, spills, merges and forks of frames, log flushes, capture, version-checked clones, queued epochs, child-first writes, stale and retired images, store syncs, deferred deletes, restores after every failure, truncation, and reclaim. A crash may fall between any two steps, may keep any prefix of the log that covers the flushed part, and may keep any mix of the unsynced blob operations; the process then reopens and goes on. A frame image is a function from keys to slots, `Here(record)` or `Below(child)`, so images taken at different times can be compared. `births` (territory and rank of each frame), `rel` and the `gone` sets are bookkeeping that no step looks at, except that a new frame is new.

Main results: `CrashConverges`, `TruncationLosesNothing`, `NoMissingChild`, for every run of the machine.

Two promises turn out to need a condition, and the exact condition is proved:

- *Deferred user deletes and pipelining.* With two or more epochs in flight, a frame queued for deletion by `mark_for_delete` can be deleted while a reachable frame on disk still leads to it: its parent went stale in one epoch and is itself fenced, so restoring it to the dirty map drops it. `SearchableIffDeleteSafe` shows that all crashes leave searchable disks just when epochs do not overlap or no such delete is ever queued. The default queue holds 16 epochs (`src/checkpoint/mod.rs:179`). `mark_for_delete` is reached only from `finalize_blob_merge` with a user sequence, and no caller passes one today.
- *Renames.* A rename is logged by its two keys, and replay reads the source from the recovered tree (`src/api/tree.rs:3378-3405`), although the documentation of `rename` says that both halves recover atomically. `RecoversIffStrict` (`LogicalReplay`, `RenameRecovery`) shows, on runs of the same machine, that every crash recovers just when no rename is logged except a forced one whose source was written since the log was last truncated. Puts and deletes always recover.

**The debt books** (`DebtBooks`, `DebtCover`, `DebtDeletes`, `DebtWatermark`, `DebtRuns`, `CheckpointDebt`). The bookkeeping that gates truncation, with its minimum-sequence maps, reference counts, fences, staged detachments and bounded queue; as a value with eighteen kinds of steps, and as the mutable object of the planner. A failed epoch puts back entries that it had already retired, so a reference count can fall below the number of epochs that hold the blob. A fork or a merge detaches a blob, which may then be dropped with changes that were never written; the copy or the parent owes them. The invariant says for every run that each unwritten change shows in a counter, and that each delete asked for is queued or has exactly one owner.

The comments in `fork_frame` and on `mark_dirty` also make the entries' sequence numbers a trim watermark. That promise needs a condition: a fork and a merge carry on the sequence of the detached blob in the dirty map, but not the one it was captured with. If the capture then fails and the orphan is dropped, every entry may be later than a change that only the copy holds. `WatermarkIffCareful` shows that the watermark is sound after all runs just when captured blobs are not detached. Truncation does not depend on it, because it waits until there are no entries at all.

**Atomic batches** (`BatchSemantics`, `BatchPreflight`, `BatchReplay`, `BatchCommit`, `BatchGroups`, `BatchOrder`, `BatchTokens`, `TouchedOracle`). What a batch means, operation by operation with sequence numbers; preflight on an overlay; apply in place, tree by tree, with failures part-way; the log record and its replay by rules of its own; grouping by tree against submission order; and the fuzz oracle that keeps touched keys in place of versions. Grouping is invisible exactly to guards whose version token is older than the batch (`OrdersAgreeIffOldToken`): a token that the batch is about to hand out names a different write in the two orders. A record always rebuilds the contents; it rebuilds the versions too just when no key is left by a forced rename to itself (`LogReplaysBatch`), which the commit ignores and replay writes again under a new version.

**The attached stream** (`JournalStream`, `JournalStore`). The chain of envelopes, cursors, bounded pages, and a store whose live state is the floor image with the retained batches applied. The documentation of `initialize_journal_stream` says that an exact retry succeeds; the code compares with the present floor, so a retry with the first anchor succeeds only until the floor moves. The contract of `Initialize` follows the code.

**Snapshots** (`SnapshotMachine`, `SnapshotRuns`). Epoch-stamped frames, the fork rule, coordinated captures, retirement, the span of epochs a detached frame waits for, reclaim, and the clock after reopen.

**The catalog** (`DbCatalog`). Ids, create, drop, bounded collection, finalization, the cache, crash and reopen between any two durable steps. Ids are never used twice within the history that survives; a create that a crash undoes gives its id back.

**The checkpoint image** (`ImageCodec`, `ImageInstall`), **lock order** (`LockOrder`), **listings and longest prefixes** (`ByteOrder`, `ListDir`, `LongestPrefix`). The image encoder cuts a length to 32 bits, so decoding undoes encoding exactly on the images whose lengths fit.

Every lemma carries `{:induction false}`: its proof is its body.

## Model

| member | source | states |
|---|---|---|
| `WalHistory.ReplayConverges` | src/api/tree.rs:3338-3372 | a value taken from any point between truncation and the log's end replays to the value at the end |
| `FrameTree.LocateFromRoot` | src/api/tree.rs:3338-3372 | in a well-formed tree every search ends, within the number of frames, at the one frame that stores the key |
| `FrameTree.BatchKeepsTree` | src/api/tree.rs:1761-1877 | a batch takes a tree of frames with some content to a tree with the batch applied, and gives every touched frame a new version |
| `Reshape.SpillKeepsTree` | src/engine/walker/spillover.rs:103-190 | moving part of a frame into a new child keeps the tree and its content |
| `Reshape.MergeKeepsTree` | src/engine/walker/merge.rs:254-280 | folding a child into its parent keeps the tree and its content |
| `Reshape.ForkKeepsTree` | src/engine/walker/cow.rs:47-101 | replacing a child by its copy keeps the tree and its content |
| `CheckpointWriters.WritersKeepInv` | src/api/db.rs:1510-1540 | commits, latched part-way failures and structural changes keep the invariant of the machine |
| `CheckpointPlanner.CaptureDetaches` | src/checkpoint/round.rs:259-310 | the images captured with a delete no longer lead to the deleted frames |
| `CheckpointPlanner.PlannerKeepsInv` | src/checkpoint/round.rs:217-473 | capture, log flush, clone, hand-over and abort keep the invariant |
| `CheckpointWorker.WritePhaseKeepsInv` | src/checkpoint/io.rs:110-201 | child-first writes, stale entries, retirement and syncs keep the invariant |
| `CheckpointWorker.DeletePhaseKeepsInv` | src/checkpoint/io.rs:203-237 | deletes after the epoch's images are synced, and all restores, keep the invariant |
| `CheckpointWorker.DetachedIsIrrelevant` | src/checkpoint/io.rs:110-201 | once an epoch with deletes has written and synced its images, no surviving or pending image leads to the frames it detached |
| `CheckpointFrontier.TruncateKeepsInv` | src/checkpoint/round.rs:148-204 | truncation at a clean frontier keeps the invariant |
| `CheckpointFrontier.ReclaimKeepsInv` | src/checkpoint/round.rs:196-203 | reclaiming a frame detached before the last clean frontier keeps the invariant |
| `CrashRecovery.SurvivorsFormTree` | src/checkpoint/round.rs:259-387 | the mix of images that a crash leaves, taken at different times, is one well-formed tree |
| `CrashRecovery.ReplayRestoresContent` | src/api/tree.rs:3338-3372 | that tree with the surviving log replayed over it has exactly the content after the log |
| `CheckpointRuns.RunKeepsInv` | src/checkpoint/round.rs:217-473 | every state of every run, through any number of crashes and reopens, meets the invariant |
| `CheckpointRuns.CrashConverges` | examples/wal_crash_soak.rs:8-14 | from any state of any run, every search on the crashed disk ends between the truncation point and the flushed watermark, and after replay finds exactly the record after the surviving log of whole batches |
| `CheckpointRuns.TruncationLosesNothing` | src/checkpoint/round.rs:148-204 | whenever truncation is allowed, every search on the synced disk finds the record after the whole log |
| `CheckpointRuns.NoMissingChild` | src/checkpoint/round.rs:377-387 | no crash leaves a reachable frame that leads to a frame missing from disk |
| `DeleteRace.GrandchildIsMissing` | src/store/buffer_manager/mod.rs:2823-2848 | a concrete run of nineteen steps with overlapping epochs after which a crash leaves a key unsearchable |
| `DeleteRace.SearchableIffDeleteSafe` | src/store/buffer_manager/mod.rs:2896-2940 | for every pipeline depth, all crashes leave searchable disks if and only if epochs do not overlap or no user delete is queued |
| `LogicalReplay.StrictLogsConverge` | src/api/tree.rs:3372-3410 | replaying logical records converges when every rename is forced and its source was written since truncation |
| `RenameRecovery.StrictRecovers` | src/api/tree.rs:3338-3415 | so does every crash of every run of the machine |
| `RenameRecovery.StaleRenameIsLost` | src/api/tree.rs:3378-3394 | a run and a crash after which a rename of an older key is lost |
| `RenameRecovery.PlainRenameIsSkipped` | src/api/tree.rs:3395-3399 | a run and a crash after which a plain rename of a new key is skipped and its source comes back |
| `RenameRecovery.RecoversIffStrict` | src/api/tree.rs:3378-3405 | for every pipeline depth and every policy for logged renames, all crashes recover if and only if the policy is the strict one |
| `DebtRuns.NoRunLosesDebt` | src/checkpoint/round.rs:297-454 | through every fork, merge, dropped orphan, success, stale clone, deferral, error and lost completion, a counter shows every unwritten change, every delete asked for is queued or has exactly one owner, and the queue keeps its bound |
| `DebtRuns.OwedIsQueuedOrClaimed` | src/store/buffer_manager/mod.rs:2947-2993 | after any run the deletes asked for and not executed are exactly the queued and the claimed ones, with the oldest sequence they were asked for at, and each claimed one is held by the round alone or by one unreported epoch alone |
| `DebtRuns.TruncationGateIsSafe` | src/checkpoint/round.rs:148-186 | after any run, counters that are all zero mean that every change is in a written image and every delete was executed |
| `DebtCover.MarkKeeps` | src/store/buffer_manager/mod.rs:2681-2722 | the minimum-merge of a late dirty mark, with the publication of what was detached under the blob, keeps every blob's debt counted |
| `DebtCover.ForkKeeps` | src/store/buffer_manager/mod.rs:749-777 | passing a forked child's debt to its copy does |
| `DebtCover.FoldKeeps` | src/store/buffer_manager/mod.rs:867-932 | passing a merged child's debt to its parent does |
| `DebtCover.PruneKeeps` | src/store/buffer_manager/mod.rs:989-1050 | dropping a released orphan does |
| `DebtCover.CaptureKeeps` | src/store/buffer_manager/mod.rs:2733-2790 | draining the dirty and delete maps into a round does, also when it drops orphans whose image was never written |
| `DebtCover.CloneKeeps` | src/checkpoint/round.rs:377-387 | putting back stale blobs, and with them all deletes, does |
| `DebtCover.RetireKeeps` | src/store/buffer_manager/mod.rs:3250-3295 | retiring a written image, with the dirty entry it covers, does |
| `DebtCover.RetiredImageIsCurrent` | src/store/buffer_manager/mod.rs:3263-3272 | an image whose version still matches misses no change: no writer of the blob is still to mark it |
| `DebtCover.EndKeeps` | src/checkpoint/io.rs:485-545 | an epoch may put back any of its entries, also those it had retired |
| `DebtCover.ReapKeeps` | src/checkpoint/round.rs:126-141 | reaping the oldest epoch, reported or lost, does |
| `DebtCover.CleanMeansWritten` | src/checkpoint/round.rs:172-181 | no dirty, flushing or delete debt and no unmarked change mean that nothing is unwritten |
| `DebtCover.OnlyWritesSettle` | src/store/buffer_manager/mod.rs:759-775 | only a retired image or an executed delete settles an unwritten change: any other step leaves one as old, with the same blob, its copy or its parent |
| `DebtDeletes.MarkForDeleteKeeps` | src/store/buffer_manager/mod.rs:2896-2940 | asking for a delete keeps one owner per claim, the oldest sequence, and what is owed |
| `DebtDeletes.CaptureKeeps` | src/store/buffer_manager/mod.rs:2947-2962 | the round becomes the owner of every queued delete |
| `DebtDeletes.EndKeeps` | src/checkpoint/io.rs:203-237 | an epoch that puts back what it did not execute, or everything, leaves no delete without an owner and none with two |
| `DebtDeletes.DeleteKeeps` | src/store/buffer_manager/mod.rs:3075-3111 | executing a claimed delete ends its claim |
| `DebtDeletes.ReapKeeps` | src/checkpoint/round.rs:608-611 | putting back a lost epoch as it was handed over does too, though it may have executed some deletes |
| `DebtDeletes.OnlyExecutionSettles` | src/store/buffer_manager/mod.rs:3075-3111 | only its execution settles a delete that was asked for |
| `DebtWatermark.CarefulRunKeeps` | src/store/buffer_manager/mod.rs:2826-2850 | while no captured blob is detached, every blob's oldest unwritten change is at or after an entry of that blob |
| `DebtWatermark.ForkOfCapturedLosesSequence` | src/store/buffer_manager/mod.rs:759-775 | a run after which every entry is later than a change that only a forked copy holds |
| `DebtWatermark.WatermarkIffCareful` | src/store/buffer_manager/mod.rs:759-775 | for every pipeline depth, the oldest entry bounds every unwritten change after all runs if and only if captured blobs are not forked or merged away |
| `CheckpointDebt.Checkpointer.MarkDirty` | src/store/buffer_manager/mod.rs:2681-2722 | takes exactly the mark step, publication included |
| `CheckpointDebt.Checkpointer.SnapshotDirty` | src/store/buffer_manager/mod.rs:2733-2790 | every dirty blob meets one fate, dropped, kept dirty, or captured with its sequence, version and one reference, and no blob that owes a write is dropped |
| `CheckpointDebt.Checkpointer.BeginRound` | src/checkpoint/round.rs:278-310 | takes exactly the capture step |
| `CheckpointDebt.Checkpointer.AbortRound` | src/checkpoint/round.rs:353-376 | puts back everything captured |
| `CheckpointDebt.Checkpointer.CloneVersioned` | src/checkpoint/round.rs:475-495 | reports exactly the captured blobs whose version moved |
| `CheckpointDebt.Checkpointer.Submit` | src/checkpoint/round.rs:364-454 | queues the accepted clones at the back, or puts everything back when the worker is gone |
| `CheckpointDebt.Checkpointer.ReapReady` | src/checkpoint/round.rs:83-104 | reaps from the front up to the first running epoch, or up to and with the first that is lost or reported an error, and fails exactly in that case |
| `CheckpointDebt.Checkpointer.Drain` | src/checkpoint/round.rs:113-141 | reaps all epochs in order and fails if and only if one was lost or reported an error |
| `CheckpointDebt.Checkpointer.MaybeTruncate` | src/checkpoint/round.rs:148-186 | allows truncation exactly under the whole gate, and then every change is in a written image and no delete is owed |
| `BatchPreflight.ProjectedPrefixEmpty` | src/api/tree.rs:1711-1734 | decides whether the tree that the overlay stands for has a key under the prefix |
| `BatchPreflight.PreflightRename` | src/api/tree.rs:1650-1677 | same verdict as the rename on the projected tree, and an overlay that stands for its result |
| `BatchPreflight.PreflightOp` | src/api/tree.rs:1585-1648 | same for every operation |
| `BatchPreflight.PreflightGuardFree` | src/api/tree.rs:1690-1702 | checking shapes alone decides a batch of puts and deletes |
| `BatchPreflight.Preflight` | src/api/tree.rs:1561-1583 | decides a batch exactly as running it in order would |
| `BatchReplay.LoggedCount` | src/api/tree.rs:1830-1842 | the record has one inner operation for each sequence number of the batch |
| `BatchReplay.ReplayRebuildsValues` | src/api/tree.rs:3372-3405 | replaying the record of any accepted batch, over any tree with the contents it ran on, rebuilds the contents it left |
| `BatchReplay.VersionMovesIffRestamped` | src/api/tree.rs:3390-3405 | replay gives a key another version, a later one, if and only if the last write of that key in the batch is a forced rename to itself |
| `BatchReplay.LogReplaysBatch` | src/api/tree.rs:3372-3405 | the record rebuilds the tree with its versions if and only if the batch ends no key with a forced rename to itself |
| `BatchReplay.SelfRenameMovesVersion` | src/api/tree.rs:1942-1963 | a batch of a put and a forced rename to itself that commits one version and replays to the next |
| `BatchCommit.RecordRebuilds` | src/journal/reader.rs:144-160 | replaying the record of a batch over several trees rebuilds what the batch left in each |
| `BatchCommit.GroupsStayBelow` | src/api/db.rs:1337-1342 | the versions a batch hands out stay below the end of its range |
| `BatchCommit.LiveTree.ApplyInPlace` | src/api/tree.rs:1761-1877 | however inserts are cut into runs, a batch that preflight accepted meets no failing guard and leaves what the batch means; a walker that breaks leaves the operations before it |
| `BatchCommit.LiveDb.ApplyLogged` | src/api/db.rs:1510-1540 | an accepted batch ends with its record in the log and the log still rebuilds all contents, or the store is latched with a prefix of the batch and no record |
| `BatchCommit.LiveDb.Atomic` | src/api/db.rs:1298-1353 | a batch over several trees applies whole with its record, or changes nothing and says why, or latches the store |
| `BatchCommit.LiveDb.AtomicOnTree` | src/api/tree.rs:1499-1560 | so does a batch on one tree |
| `TouchedOracle.ModelAtomic` | fuzz/fuzz_targets/atomic_model.rs:186-267 | the oracle's loop, from the values alone, predicts the batch on every tree with those values: accepted with the same values, or the same error |
| `TouchedOracle.CurrentIsUntouched` | fuzz/fuzz_targets/atomic_model.rs:180-184 | a version read before the batch matches if and only if the key was there and is untouched |
| `TouchedOracle.OracleAgrees` | fuzz/fuzz_targets/atomic_model.rs:186-267 | for every tree and batch, oracle and versioned semantics succeed with the same values or fail with the same error |
| `BatchGroups.GroupBatchOps` | src/api/db.rs:1470-1497 | one group per tree in order of first appearance, each with exactly its operations in order; or the first unusable name |
| `BatchOrder.PreflightGroups` | src/api/db.rs:1499-1508 | trying each group on its tree as it is decides the grouped batch |
| `BatchOrder.RunDbAt` | fuzz/fuzz_targets/db_model.rs:242-311 | in submission order every tree ends where its own operations take it |
| `BatchOrder.GroupingKeepsMeaning` | src/api/db.rs:1470-1508 | with old tokens the grouped batch is accepted exactly when the submitted one is, with the same contents |
| `BatchOrder.RangesCover` | src/api/db.rs:1499-1508 | the groups' ranges are consecutive and share out exactly the reserved sequence numbers |
| `BatchOrder.VersionsInRange` | src/api/tree.rs:1570-1577 | every record a batch writes carries a version of its own range |
| `BatchTokens.OrdersAgreeIffOldToken` | src/api/db.rs:1470-1508 | grouping is invisible to guards with a given token if and only if the token is older than the batch |
| `JournalStream.NewEnvelope` | src/api/journal.rs:217-239 | accepts exactly consecutive sequences within 64 bits and non-empty payloads within 32 bits |
| `JournalStream.ChainedSequence` | src/api/journal.rs:217-239 | sequences along the chain have no gap |
| `JournalStream.StartAfter` | src/api/journal.rs:362-405 | the search for a cursor finds it by sequence and then requires an exact match |
| `JournalStream.LocatesPositions` | src/api/journal.rs:362-405 | exactly the positions from floor to tail are found, each at its place |
| `JournalStream.BoundedPage` | src/api/journal.rs:188-213 | a page is the longest run within the limits, never empty while envelopes remain, and its cursor is where it ends |
| `JournalStream.ReadAll` | src/api/journal.rs:137-148 | following the cursor from any position yields exactly the retained suffix, for any limits |
| `JournalStore.OneSuccessor` | src/api/journal.rs:418-433 | of all envelopes ever accepted, no two name the same previous anchor |
| `JournalStore.AttachedStore.OrdinaryBatch` | src/api/db.rs:1298-1353 | refused once the stream exists; before that an ordinary batch over several trees |
| `JournalStore.AttachedStore.Initialize` | src/api/journal.rs:295-310 | starts a stream on a clean store; later accepts only the present floor |
| `JournalStore.AttachedStore.AttachedBatch` | src/api/db.rs:1356-1468 | a batch over several trees and its envelope take effect together, or neither does, or the store is latched with a prefix of the batch and no envelope; the live state stays the floor with the retained batches |
| `JournalStore.AttachedStore.Checkpoint` | src/api/db.rs:874-887 | moves the floor to the tail at the present image |
| `JournalStore.AttachedStore.EnvelopesAfter` | src/api/journal.rs:362-415 | a non-empty page after every retained cursor that is not the tail, and the right error otherwise |
| `SnapshotMachine.SnapStays` | src/engine/walker/cow.rs:47-101 | a step on live frames that no snapshot of their tree can see leaves every live snapshot alone |
| `SnapshotMachine.PrivateIsUnseen` | src/engine/walker/cow.rs:31-37 | the test on the barrier implies that no snapshot of the frame's tree can see it |
| `SnapshotMachine.OtherCaptureKeepsUnseen` | src/store/buffer_manager/mod.rs:814-850 | and a capture of other trees after the test does not change that |
| `SnapshotMachine.LiveReadEnds` | src/engine/walker/cow.rs:47-101 | every read of the live tree ends within as many steps as there are frames |
| `SnapshotMachine.ForkKeepsInv` | src/engine/walker/cow.rs:47-101 | forking a child that a snapshot may see keeps the invariant |
| `SnapshotMachine.TakeKeepsInv` | src/store/buffer_manager/mod.rs:817-850 | a coordinated capture at consecutive epochs does |
| `SnapshotMachine.RetireKeepsInv` | src/store/buffer_manager/mod.rs:948-985 | lowering the barrier to the highest live epoch does |
| `SnapshotMachine.PromoteKeepsInv` | src/store/buffer_manager/mod.rs:221-245 | a detached frame is released only when no snapshot of its span is live, and then none owns it |
| `SnapshotMachine.ReclaimKeepsInv` | src/store/buffer_manager/mod.rs:1304-1357 | reclaiming a released frame does |
| `SnapshotMachine.ReopenKeepsInv` | src/api/db.rs:1045-1067 | a clock at or above every live frame does, with no snapshot left |
| `SnapshotRuns.CaptureReads` | src/api/db.rs:696-718 | every tree of one capture is read as of the moment before it |
| `SnapshotRuns.SnapshotIsolation` | src/api/view.rs:3-13 | over any history and any later run, a live snapshot reads for every key what its tree read before the capture, and the read ends at a record |
| `SnapshotRuns.RestoreClock` | src/api/db.rs:1053-1067 | the clock after reopen is the highest stamp of the walked frames, at least one, and every state with those frames may go on from it; an exhausted stamp is an error |
| `DbCatalog.CounterIsNoName` | src/api/db.rs:1845-1855 | no valid name collides with the id counter's key |
| `DbCatalog.CreatedOk` | src/api/db.rs:1910-1922 | a new entry's id is a user id below the new counter and shared with no other name |
| `DbCatalog.NextIsFresh` | src/api/db.rs:349-363 | the counter is above every id of every earlier version |
| `DbCatalog.SafePrepare` | src/api/db.rs:319-323 | preparing a root disturbs no version that a crash may go back to |
| `DbCatalog.SweepKeepsStored` | src/api/db.rs:1187-1245 | deleting an unreachable frame keeps the closure of every Live tree, the catalog and shared frames |
| `DbCatalog.DroppedIsUnreachable` | src/api/db.rs:1215-1223 | the root of a dropped, unpinned tree is not kept |
| `DbCatalog.FinishesDropped` | src/api/db.rs:1142-1180 | once only reachable frames are stored, finalization removes all tombstones and nothing else |
| `DbCatalog.Database.Lookup` | src/api/db.rs:1076-1095 | answers from the stored catalog, and the cache stays equal to it |
| `DbCatalog.Database.PrepareRoot` | src/api/db.rs:316-323 | the root is stored before any name leads to it |
| `DbCatalog.Database.CreateTree` | src/api/db.rs:304-347 | succeeds exactly for a valid new name while ids last, with an id that no version of the recorded history used |
| `DbCatalog.Database.DropTree` | src/api/db.rs:423-458 | succeeds exactly for a Live tree and leaves its tombstone |
| `DbCatalog.Database.SweepPass` | src/api/db.rs:1187-1245 | deletes at most the limit, only unreachable frames, and is complete exactly when none is left |
| `DbCatalog.Database.SweepAll` | src/api/db.rs:1187-1245 | repeated passes delete every unreachable frame and no other |
| `DbCatalog.Database.Finalize` | src/api/db.rs:1142-1180 | removes exactly the tombstones whose root is gone |
| `DbCatalog.Database.CollectAll` | src/api/db.rs:1142-1245 | without pins, repeated passes of any positive size leave exactly the Live entries, the counter and the reachable frames |
| `DbCatalog.Database.Crash` | src/api/db.rs:1007-1043 | going back to any version not behind the durable one keeps all of this |
| `DbCatalog.Database.Reopen` | src/api/db.rs:1007-1043 | reopening never finds a root or a frame of a Live tree missing |
| `ImageCodec.LengthRoundTrip` | src/api/checkpoint.rs:72-86 | a length survives if and only if it fits its bytes |
| `ImageCodec.EncodeImage` | src/api/checkpoint.rs:64-86 | the buffer built step by step is the encoding |
| `ImageCodec.Take` | src/api/checkpoint.rs:102-117 | reads the field at an offset and moves past it, or gives the right error |
| `ImageCodec.DecodeImage` | src/api/checkpoint.rs:130-147 | the decoder's loops compute the decoding |
| `ImageCodec.DecodeUndoesEncode` | src/api/checkpoint.rs:64-147 | decoding undoes encoding if and only if every length fits in 32 bits |
| `ImageCodec.EncodeUndoesDecode` | src/api/checkpoint.rs:64-147 | an accepted string is the encoding of what it decodes to, and that fits |
| `ImageCodec.PrefixFree` | src/api/checkpoint.rs:130-147 | no accepted image is a proper prefix of another |
| `ImageInstall.Install` | src/api/db.rs:831-845 | decodes, creates and fills family by family, and stops at the first error |
| `ImageInstall.InstallRebuilds` | src/api/db.rs:772-845 | installing an export into an empty database rebuilds every name, key and value |
| `LockOrder.StepKeepsInv` | src/concurrency/gate.rs:36-80 | every claim, admission and release keeps write bits apart and holders below what they wait for |
| `LockOrder.MutualExclusion` | src/concurrency/gate.rs:36-80 | while a thread holds a lock exclusively no other holds it |
| `LockOrder.NoCyclicWait` | src/api/db.rs:1313-1324 | in every state of every run no thread waits, directly or through others, for itself |
| `LockOrder.SomeoneRuns` | src/concurrency/gate.rs:36-80 | some thread is not waiting or can take its next step |
| `LockOrder.PairLocks` | src/concurrency/endpoint_locks.rs:32-53 | the two shards of a rename in ascending order, a shared one once |
| `LockOrder.GateOrder` | src/api/db.rs:1313-1319 | the touched ids strictly ascending and without loss |
| `LockOrder.BatchLocksAscend` | src/api/db.rs:1416-1450 | maintenance, gates, commit gate and tail are asked for in ascending order |
| `LockOrder.WriteLocks` | src/api/tree.rs:1050-1061 | a write of one key asks for maintenance, its gate, its shard and the commit gate in ascending order |
| `LockOrder.RenameLocksAscend` | src/api/tree.rs:1337-1384 | so does a rename with both its shards |
| `LockOrder.PlannerLocks` | src/checkpoint/round.rs:152-194 | and the planner with maintenance, commit gate and stream |
| `LockOrder.NextLockMayBeAsked` | src/api/db.rs:1313-1324 | a thread that follows an ascending list always takes steps of the machine |
| `ByteOrder.PrefixIsRange` | benches/workload_test_engines.rs:179-184 | the keys that start with a string are exactly those from it up to its successor |
| `ListDir.RollupsAscend` | benches/main.rs:1657-1680 | in key order the entries never go back |
| `ListDir.ListingIsSound` | fuzz/fuzz_targets/atomic_model.rs:361-386 | every entry is the entry of some key under the prefix |
| `ListDir.ListingIsComplete` | fuzz/fuzz_targets/atomic_model.rs:361-386 | every key under the prefix has its entry |
| `ListDir.ListingAscends` | fuzz/fuzz_targets/atomic_model.rs:361-386 | entries come in strictly ascending order |
| `ListDir.SeekSkipsDir` | benches/workload_test_engines.rs:190-194 | a seek to a directory's successor passes exactly the keys listed under it |
| `ListDir.ListByScan` | benches/main.rs:1657-1680 | scanning with last-entry dedup gives the page of the listing |
| `ListDir.ListBySet` | fuzz/fuzz_targets/atomic_model.rs:361-386 | remembering emitted directories gives the listing |
| `ListDir.ListByJumps` | benches/workload_test_engines.rs:394-414 | jumping by seeks gives the page of the listing, for every limit |
| `LongestPrefix.ForwardWalk` | benches/workload_test_engines.rs:134-144 | the forward walk returns the longest stored candidate if and only if the chain is closed |
| `LongestPrefix.Bisect` | benches/ai_meta.rs:130-146 | on closed chains bisection returns it |
| `LongestPrefix.LongestIsUnique` | benches/ai_meta.rs:130-146 | there is only one, so both agree |
| `LongestPrefix.FilterIsSearch` | src/api/view.rs:89-99 | filtering the global hit by the scope is searching only the keys in scope |

## Left out

- The internals of the blob store, the manifest, the node layout inside a frame, latches, read indexes, eviction, compaction and vacuum; a frame is its key-to-slot function.
- The byte format, checksums and torn-tail scan of the log; a record survives whole or not at all, in order.
- Manual checkpoints beside the background pipeline; the machine has one planner and one worker.
- The write-delta buffer and its flush before batches and captures; the truncation gate takes its size as given.
- A cached blob that is lost while it is dirty or captured; the bookkeeping keeps the versions of all frames.
- The counter of fenced blobs beside the two delete maps; the gate looks at the maps themselves.
- Batches without a log: the latch argument is made for logged and attached batches.
- Memory ordering of atomics and the spinning of locks; a lock step is atomic.
- Text validity of names in catalog and image; names are strings or byte strings.
- The 17-byte and 16-byte values that the catalog stores, and the record length limits of ordinary batches.
- Read-only opens, statistics, configuration, language bindings and benchmarks other than the listed loops.
- ListDir.ListByScan: returns the entries of a page, while the benchmark loop returns only their number.
- ListDir.ListByJumps: returns the entries of a page, while the benchmark loop returns only their number.
- LongestPrefix.Bisect: asks for a closed chain, because on other chains its answer depends on which candidates it happens to look at.
- BatchOrder.GroupingKeepsMeaning: does not equate the reported failures, because the two orders may meet different failures first.
- DbCatalog.Database.CreateTree: calls an id fresh within the surviving history, because the code gives the id of a create that a crash undid to a later one.
- RenameRecovery.StrictRecovers: earlier crashes in the run replay absolute operations, which is what logical replay comes to under the same policy.
