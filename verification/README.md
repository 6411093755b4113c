# Verification model of the STRUBS durability core

STRUBS stores erasure-coded objects across many disks. This project models the parts of it that
decide whether an array survives a crash, a lost disk or a restored database, and proves what they
promise over every run, not only over one call.

* **The namespace journal** (`Lines`, `Segments`, `Seeding`, `Election`, `JournalProtocol`,
  `JournalLockstep`, `JournalTidy`, `JournalWrite`, `JournalOpen`, `JournalReelect`, `JournalLineage`,
  `JournalRebuild`, `JournalRemoval`, `JournalService`, `JournalGate`, `JournalCounterRuns`). A
  group-commit log on several disks, with partial writes, rollback of rejected batches, rotation,
  re-election, seeding, cold start and the check before a disk leaves. `JournalProtocol` says what each
  operation may do to the disks and proves that every acknowledged record is on every open replica;
  `JournalLockstep` proves that the replicas are one log, byte for byte, also across a crash part-way
  through a batch, and `JournalTidy` that what any other disk holds is a byte prefix of it wherever no
  crash interrupted a write; the other modules are the loops that do it, each proved to stay inside the
  protocol. `JournalCounterRuns` holds the runs that end badly. `JournalService.Journal` is the object
  itself: a ghost field records every step it takes, so the whole-run theorems hold of it. `JournalGate`
  is the exclusion window as a transition system, which is what lets a rebuild count as one step.
* **The fleet recovery passphrase** (`PassphraseProtocol`, `PassphraseRotation`, `PassphraseProof`).
  Rotation against encryption over keyslots, the recorded hash and its sealed copy. The objects
  that rotate and that encrypt carry a ghost run of the transition system and are proved to stay inside it.
* **Object commit and delete** (`ObjectLifecycle`, `FileObject`). Slices, journal and database row, and
  the replay rules that rebuild the rows.
* **The bootstrap manifest** (`Manifest`, `ManifestWrites`). The per-disk merge and the coalescing
  write.
* **Stripe geometry and placement** (`Stripe`, `Striping`, `Planner`).
* **Buckets** (`Buckets`, `ContentRepository`). The memoised root-ancestor search, path creation and the
  backfill.

How the outside is modelled:

* Every awaited call may fail, the look at a file included; whether it took effect first is a parameter.
  A crash can follow any step, and can cut a write anywhere.
* Hashes are injective and a sealed value is an authenticated box, so the record stands for the one
  passphrase it accepts. Segment files are named by their number.
* Division in the plan is exact integer arithmetic; the source divides doubles and rounds.
* Disks, handles and the database are values of the classes' own fields, and every method states the
  whole new value. `seq`, `map` and `multiset` fields are reassigned where the source mutates.

## What turned out not to hold

The comments of the source promise these without a condition. Each has a concrete run or input against
it and the exact condition under which it holds.

* A copy that throws midway can leave a target with less than it had: `copyFile` is not atomic
  (`Seeding.InterruptedCopyShrinksATarget`). Exactly when: `Seeding.CopyOne` and `Seeding.CopySegments`,
  from the fault and the two lengths. If the target was seen, nothing is lost to the array, since a
  source holds strictly more (`JournalReelect.FillSeats`).
* Any failure to stat a target is taken for the file being absent, so a longer or a diverged target is
  overwritten and the copy reports success (`Seeding.UnseenTargetIsOverwritten`,
  `Seeding.UnseenTargetNeedNotAgree`). Exactly when a finished seed loses what a target held:
  `Seeding.SeedLosesIff`. On a cold start this can remove the only copy of an acknowledged record from
  the array (`JournalCounterRuns.FailedLookLosesARecordForGood`, by the copy that
  `JournalCounterRuns.ColdStartOverwritesTheHolder` makes).
* An acknowledged record is lost to the live set when the only disk that has it is away at a cold
  re-election (`JournalCounterRuns.AbsentHolderLosesARecord`, from the sources that
  `JournalCounterRuns.ColdStartFindsTheShortCopy` computes). Exactly when, for every cause including the
  failed look above: `JournalLockstep.AdoptionIsCompleteIff`.
* A re-election that throws after closing an unmounted replica leaves it elected, and the next rotation
  reopens it with a hole (`JournalCounterRuns.ThrownReelectionLeavesAHole`). Exactly when:
  `JournalLockstep.RotationIsCompleteIff`.
* A replica that fails is said to stay a strict prefix of a healthier copy, so that a disagreement is
  always another history. After a crash it need not: a torn tail that is not cut off, because its disk was
  away at the cold start, disagrees with what the log goes on with, and the disk is taken for a stranger
  (`JournalCounterRuns.TornReplicaDiverges`). Without a crash it is true (`JournalTidy.DroppedReplicaIsAPrefix`),
  and with crashes of every segment they did not interrupt (`JournalTidy.RunsStayTidy`). In one they did,
  exactly when: `JournalTidy.TornStaysAPrefixIff`.
* The removal check for an unmounted disk takes the word of a replica that may lack what the disk has
  (`JournalCounterRuns.UnmountedRemovalCanLoseARecord`). Exactly when the replica covers the disk:
  `JournalRemoval.ReplicaCoversAbsentDiskIff`.
* A retired disk that missed a rotation can be restored and is then not opened by the recorded
  passphrase; the code only logs (`PassphraseProtocol.RestoredDiskMissedTheRotation`). Exactly when:
  `PassphraseProtocol.RestoreIsHarmlessIff`, from the rotations since; for a restored database,
  `PassphraseProtocol.RestoreDatabaseIsHarmlessIff`, from the slots written and removed since, also on
  disks encrypted since. The comments
  say a rotation walks volumes that are not deleted; the code walks every attached disk with the array's
  nameplate, and the model follows the code.
* A rotation re-run adds a second slot when a disk that has the new passphrase could not be read at the
  first question (`PassphraseRotation.DuplicateIff`). The comment says re-running finishes the job, but
  a rotation cut after its record is refused with the same arguments, so a slot left on the old
  passphrase stays (`PassphraseRotation.OldSlotStays`). Exactly when a re-run is refused:
  `PassphraseRotation.RerunIsRefusedIff`.
* A delete reports success even if no slice was unlinked, and a rebuild then brings the object back
  (`ObjectLifecycle.UnlinkErrorsAreSwallowed`). Exactly when:
  `ObjectLifecycle.SuccessfulDeleteComesBackIff`. The comment at the head of `delete()` puts unlinking
  before the database; the code does it after, and the model follows the code.
* An insert that took effect but reported failure ends as a row with no slices
  (`ObjectLifecycle.DishonestInsertMakesAPhantom`). Exactly when:
  `ObjectLifecycle.FailedInsertLeavesAPhantomIff`.
* A manifest pass merges with a foreign array's manifest without looking at whose it is, so a foreign
  pointer is published under our identity and read back as ours (`Manifest.ForeignPointerBecomesOurs`).
  Exactly when: `Manifest.ForeignPointerIsTakenInIff` for the merge, `Manifest.ForeignDiskIsRacked` for
  the whole course of events.

## Model

| member | source | states |
|---|---|---|
| Lines.RollBackTornTail | lib/io/journal.ts:1325-1362 | The backward scan in chunks keeps exactly the longest prefix that ends with a newline, for any contents. |
| Lines.LastIndexOfNewline | lib/io/journal.ts:1325-1362 | The position of the last newline of one buffer, or that there is none. |
| Lines.LongestCompleteIsUnique | lib/io/journal.ts:1325-1362 | There is only one longest newline-terminated prefix. |
| Lines.AppendAfterRepair | lib/io/journal.ts:866-868 | After the repair a batch parses to the old complete records followed by its own. |
| Lines.AppendWithoutRepairIff | lib/io/journal.ts:866-868 | Without it, exactly when the segment already ended on a record boundary. |
| Lines.TornTailIsGlued | lib/io/journal.ts:866-868 | What goes wrong otherwise: the first record of the batch is fused to the fragment. |
| Lines.RecordsOfPrefix | lib/io/journal.ts:755-760 | A copy that extends the complete part of another holds all its records, first and in order. |
| Seeding.AgreeOnPrefix | lib/io/journal.ts:1373-1400 | The chunked comparison is true exactly when both files have that many bytes and they are equal. |
| Seeding.CopyOne | lib/io/journal.ts:1497-1535 | One segment: extended to the longer copy, refused untouched on disagreement, or stopped; a target whose stat fails is overwritten; what was there survives exactly when the fault, the two contents and the look say so. |
| Seeding.UnseenTargetIsOverwritten | lib/io/journal.ts:1499-1521 | A concrete target whose stat fails is replaced by a shorter copy, and the copy succeeds. |
| Seeding.UnseenTargetNeedNotAgree | lib/io/journal.ts:1499-1521 | A concrete one of another history is replaced likewise. |
| Seeding.InterruptedCopyShrinksATarget | lib/io/journal.ts:1497-1535 | A concrete copy that breaks off and leaves less than there was. |
| Seeding.CopySegments | lib/io/journal.ts:1466-1545 | Ascending copy: success is the longer of the two per segment, or the source's where the target was not seen; a disagreement that is seen leaves that segment untouched; an interruption touches one segment, and keeps what it held exactly when the fault and the lengths say so. |
| Seeding.SeedFrom | lib/io/journal.ts:405-440 | From all sources in turn: what is there came from the target or a source; success holds the longest copy of every segment since the last unseen overwrite; copies of one history always succeed when every file operation works, whatever was not seen. |
| Seeding.SeedLosesIff | lib/io/journal.ts:405-440 | A finished seed loses what the target held exactly when it was overwritten unseen and no copy from then on includes it. |
| Seeding.LongestIsOrderFree | lib/io/journal.ts:405-440 | When every stat succeeds, the result does not depend on the order of the sources. |
| Election.ChooseReplicas | lib/io/journal.ts:243-278 | Exactly min(K, candidates) distinct candidates over exactly min(K, groups) bus groups, the incumbents that can be kept first. |
| Election.KeepableIff | lib/io/journal.ts:250-259 | Kept are exactly the incumbents still eligible that are the first of their group. |
| Election.GroupIff | lib/io/journal.ts:253-266 | Two disks are one group exactly when they are on one bus, or are the same ungrouped disk, or a bus goes by the negative of the other's number. |
| Election.UngroupedStandAlone | lib/io/journal.ts:253-266 | With no disk on a bus there are as many groups as disks. |
| JournalProtocol.AcknowledgedIsSafe | lib/io/journal.ts:981-1143 | Over every run of writes with any failures, rotations, re-elections, throws and crashes, every acknowledged record is on every open replica, in order, if no rotation reopens a closed replica and cold starts find a source that carries them. No rollback is assumed. |
| JournalProtocol.StepIsSafe | lib/io/journal.ts:981-1143 | The same for one step. |
| JournalProtocol.QuietRunsAreCareful | lib/io/journal.ts:816-904 | A closed replica is only ever left elected by a throw, so without those every rotation is safe. |
| JournalLockstep.LockstepOverRuns | lib/io/journal.ts:311-550 | Over every clean run, crashes part-way through a batch included (which runs are clean: `JournalTidy.RunsStayTidy`): open replicas are byte-identical to one log with the same segment open, no other disk holds a complete record out of place, and the log holds the old records followed by the acknowledged ones and what survived of interrupted batches, each once and in order. |
| JournalLockstep.StepKeepsLockstep | lib/io/journal.ts:981-1143 | The same for one step. |
| JournalTidy.DroppedReplicaIsAPrefix | lib/io/journal.ts:747-760 | Over every run without a crash in which rejected batches are rolled back, no rotation reopens a closed replica and cold starts find every segment in full: every step is clean, and every disk, a replica that dropped out included, is a byte prefix of each live one. |
| JournalTidy.RunsStayTidy | lib/io/journal.ts:311-550 | With crashes: the same of every segment no crash interrupted, and lockstep throughout, if what a crash tore is cut off before it is copied. |
| JournalTidy.StepKeepsTidy | lib/io/journal.ts:981-1143 | The same for one step: a crash tears only the segment that was being written, and nothing else tears any. |
| JournalTidy.TornStaysAPrefixIff | lib/io/journal.ts:747-760 | A disk left with a torn tail is a byte prefix of the log, after any further batches, exactly when the tail is how they begin. |
| JournalCounterRuns.TornReplicaDiverges | lib/io/journal.ts:747-760 | A run in which it is not, and the probe takes the disk for another history. |
| JournalLockstep.AcknowledgedIsKept | lib/io/journal.ts:981-1119 | What a run leaves in the log contains everything it acknowledged, in order. |
| JournalLockstep.CrashIsRecoveredIff | lib/io/journal.ts:684-743 | A cold start after a crash, from every disk that was being written: the adopted replicas are the log with the lines that survived anywhere exactly when they open the segment that was being written or no copy has a torn tail there. |
| JournalLockstep.AdoptionIsCompleteIff | lib/io/journal.ts:405-445 | An adopted replica is the whole log, byte for byte, exactly when each segment was in full among the copies it was put together from and, unless its tail is cut on opening, none of them had a stray one. |
| JournalLockstep.ClosedReplicaIsFullIff | lib/io/journal.ts:981-1134 | A replica closed while it held the whole log still does exactly when nothing has been acknowledged since. |
| JournalLockstep.RotationIsCompleteIff | lib/io/journal.ts:1136-1143 | A replica closed while it held the whole log and reopened by a rotation is in lockstep exactly when nothing was acknowledged in between. |
| JournalLockstep.ReelectKeepsFullDisk | lib/io/journal.ts:747-760 | A disk that holds every record keeps them through a re-election that sees it. |
| JournalCounterRuns.ColdStartFindsTheShortCopy | lib/io/journal.ts:563-743 | With the one disk that has the second record away, the search for sources returns the other disk, which has a history. |
| JournalCounterRuns.AbsentHolderLosesARecord | lib/io/journal.ts:563-760 | A run, from those sources, in which an acknowledged record is missing from the only live replica. |
| JournalCounterRuns.ColdStartOverwritesTheHolder | lib/io/journal.ts:405-440 | On that array, with both disks in, both are sources, and seeding the one with the record while its stat fails succeeds and leaves it without. |
| JournalCounterRuns.FailedLookLosesARecordForGood | lib/io/journal.ts:1499-1521 | A run with that outcome, in which a failed stat during a cold start leaves an acknowledged record on no disk at all. |
| JournalCounterRuns.ThrownReelectionLeavesAHole | lib/io/journal.ts:576-584 | A run in which a live replica misses an acknowledged record after a re-election threw. |
| JournalWrite.WriteToAll | lib/io/journal.ts:995-1036 | Every open replica gets its turn; the set afterwards is those that were not asked and those that succeeded. |
| JournalWrite.EveryTurnTaken | lib/io/journal.ts:995-1036 | That is one group commit: durable replicas have the whole batch, the others some prefix of it and are out. |
| JournalWrite.RollBack | lib/io/journal.ts:1050-1066 | Every replica that was open is cut back to where its file ended, where the truncation takes effect; nothing else moves. |
| JournalWrite.TruncationUndoesAppend | lib/io/journal.ts:1295-1312 | Cutting back to the old length undoes any partial append. |
| JournalOpen.OpenAll | lib/io/journal.ts:857-904 | Exactly the replicas that were open or could be opened are left, open on the active segment at its end; exactly the tails of those that got that far were cut. |
| JournalOpen.RotateIfNeeded | lib/io/journal.ts:1136-1143 | Rotates exactly when an open replica has filled its segment, and then exactly the elected replicas that open are in the set, on the next one. |
| JournalOpen.FullIff | lib/io/journal.ts:1136-1143 | A segment is full by the noted lengths exactly when it is by the files. |
| JournalReelect.Adopt | lib/io/journal.ts:362-440 | A volume is refused untouched exactly when it cannot be listed or holds a foreign segment; taken, each segment holds its own history and every source's, or what the copies since an unseen overwrite held. |
| JournalReelect.FillSeats | lib/io/journal.ts:357-445 | Standing replicas keep their seats; of the others exactly those that can be listed, hold nothing foreign and took every copy are adopted, as full copies of what they were put together from; a copy only fails where something could go wrong with it; whatever failed, nothing is gone that a source does not hold more of, but for segments overwritten unseen. |
| JournalReelect.ForeignIff | lib/io/journal.ts:374-386 | A disk is foreign exactly when it has something written in a segment no source lists; an empty segment never makes it so. |
| JournalLineage.SameLineage | lib/io/journal.ts:1418-1440 | True exactly when the lowest shared segment agrees on its probed start. |
| JournalLineage.MajorityLineage | lib/io/journal.ts:764-789 | Each candidate is in the first class whose first member it resembles; a largest class is chosen unless it is tied; candidates that all look alike are all sources. |
| JournalLineage.ColdScan | lib/io/journal.ts:595-662 | Finds exactly the volumes with a history among those that can be read, and whether one could not. |
| JournalLineage.FoundIff | lib/io/journal.ts:595-662 | A disk has a vote exactly when it is mounted, not deleted, listable, has the first segment and has something written. |
| JournalLineage.SeedSources | lib/io/journal.ts:563-743 | A standing replica if there is one, else the largest class on the platters; a tie, or nothing found while a disk is silent, is a refusal, and nothing else is. |
| JournalLineage.OneLogLooksAlike | lib/io/journal.ts:1402-1414 | Prefixes of one log always look alike to the probe. |
| JournalRebuild.CloseUnmounted | lib/io/journal.ts:574-584 | Closes exactly the replicas whose disks are reported unmounted. |
| JournalRebuild.Highest | lib/io/journal.ts:817-852 | The active segment is the highest of the lineage and never lower than the current one. |
| JournalRebuild.Rebuild | lib/io/journal.ts:311-550 | However it ends it is a re-election in the sense of the protocol, or a throw that only closed unmounted replicas. Rebuilt, the set is the election's, less exactly those that could not be seated or opened, on the highest segment the sources list or the current one. With none to seat, what stands stays. It misses nothing when every stat succeeds. |
| JournalRebuild.NothingFailsFillsTheSet | lib/io/journal.ts:243-278 | When nothing fails, exactly as many replicas are live as are wanted, or as there are candidates. |
| JournalRebuild.OpeningCompletesReelection | lib/io/journal.ts:447-510 | Seeded and kept replicas, opened, make a valid set: kept ones byte for byte, adopted ones with every record of every source. |
| JournalRebuild.RebuildIsClean | lib/io/journal.ts:563-760 | In an array with one log that is tidy but for some segments, a rebuild keeps lockstep and tears nothing whenever a replica is standing, or a full copy can be read and every stat succeeds, if no copy is stray in those segments. |
| JournalRebuild.TidyStartsAlike | lib/io/journal.ts:1402-1414 | Where every disk holds a prefix of the log in the first segment, all histories look alike. |
| JournalRebuild.CrashStartsAlike | lib/io/journal.ts:1402-1414 | And they still do after a crash. |
| JournalRebuild.RebuildAfterCrash | lib/io/journal.ts:595-743 | When the process dies part-way through a batch and the disks being written can be read afterwards, are alike and none has a higher segment, the rebuilt replicas are the log with the lines of it that survived anywhere, also after an earlier crash in that segment. |
| JournalRemoval.NotLastCopy | lib/io/journal.ts:1190-1287 | True exactly when every segment is a byte prefix of the same segment on another mounted, readable, non-deleted disk, or the disk is unmounted and a healthy replica is elsewhere. |
| JournalRemoval.MountedRemovalLosesNothing | lib/io/journal.ts:1229-1287 | Every record of every segment of a released disk is on another disk that is mounted, listable and not deleted. |
| JournalRemoval.MountedReleaseIff | lib/io/journal.ts:1229-1287 | And such a copy of each segment is all it takes. |
| JournalRemoval.UnmountedReleaseIff | lib/io/journal.ts:1199-1221 | For an unmounted disk it takes an open replica on a disk reported as mounted. |
| JournalRemoval.RemovalsTogetherLoseNothing | lib/io/journal.ts:1229-1287 | Disks on their way out do not vouch for each other: if all pass while all are marked deleted, every record of all of them is on a disk that stays. |
| JournalRemoval.UnmountedRemovalLosesNothing | lib/io/journal.ts:1199-1221 | In lockstep, one open replica elsewhere has every record an unmounted disk has. |
| JournalRemoval.RemovalLosesNoSegment | lib/io/journal.ts:1169-1287 | In lockstep, after the disk is gone every record of each written segment is still together on some disk if it was. |
| JournalRemoval.ReplicaCoversAbsentDiskIff | lib/io/journal.ts:1199-1221 | An adopted replica covers an absent disk that holds the whole log exactly when each segment was in full among the copies the replica was put together from. |
| JournalCounterRuns.UnmountedRemovalCanLoseARecord | lib/io/journal.ts:1199-1221 | Outside lockstep an unmounted disk is released with the only copy of an acknowledged record. |
| JournalService.Commit | lib/io/journal.ts:995-1066 | A batch is durable exactly when some open replica wrote and synced all of it; otherwise it is off every platter whose truncation took. |
| JournalService.Journal.Append | lib/io/journal.ts:933-968 | A record is queued; with no replica one re-election is tried first, and the record is refused exactly when that leaves none. |
| JournalService.Journal.Flush | lib/io/journal.ts:981-1134 | The queue is written as one batch and emptied; acknowledged exactly when durable somewhere; those that made it durable stay; a rotation follows exactly when that filled a segment, and who is in the set then; the recorded run grows by those steps. |
| JournalService.Journal.Reconfigure | lib/io/journal.ts:311-550 | Drains, then rebuilds: the set is the election's for the wanted number, less those not seated or opened; the step recorded is a re-election or a throw. |
| JournalService.Journal.RelocateOff | lib/io/journal.ts:1169-1287 | Unless the rebuild threw, the disk is released exactly when it is not elected and the removal check holds. |
| JournalService.OpenReplicasCarryEverythingAcknowledged | lib/io/journal.ts:981-1143 | At any moment of any journal object's life, every open replica carries everything acknowledged. |
| JournalService.Journal.CrashAndRestart | lib/io/journal.ts:311-550 | The same of the object: it dies part-way through a batch and rebuilds, and however that ends it is in lockstep again and only that segment may be torn. |
| JournalService.OpenReplicasAreOneLog | lib/io/journal.ts:981-1143 | At any moment of the life of a journal object whose steps were clean, its open replicas are one log, byte for byte. |
| JournalService.EveryDiskIsAPrefix | lib/io/journal.ts:747-760 | At any moment of the life of one whose steps were orderly, what any disk holds of a segment no crash interrupted is a byte prefix of the log and of every open replica. |
| JournalService.ReleasedDiskIsNotMissed | lib/io/journal.ts:1169-1287 | A disk such a journal releases takes no written segment with it. |
| JournalGate.NothingIsAcknowledgedDuringACopy | lib/io/journal.ts:293-330 | In every interleaving, while sources are copied the queue is empty, no flush runs, and nothing was acknowledged since the copy began. |
| JournalGate.CopyWindowIsQuiet | lib/io/journal.ts:928-978 | Whatever happens during a copy, up to its end, acknowledges nothing. |
| JournalGate.OrderIsNeeded | lib/io/journal.ts:921-931 | The window depends on an append that found the gate open queueing before a later re-election drains. |
| JournalGate.EveryRecordIsAccountedFor | lib/io/journal.ts:933-1134 | Every appended record is in exactly one place, as often as it was appended. |
| JournalGate.NoRecordIsStranded | lib/io/journal.ts:981-992 | A queued record always has a timer, a chained flush or a drain coming. |
| JournalGate.EveryReelectionRuns | lib/io/journal.ts:299-313 | Every re-election asked for has run, has its turn, or is chained; the gate opens only at the end of the chain. |
| JournalGate.EveryFlushIsFollowedUp | lib/io/journal.ts:981-992 | Every flush called while one was in flight has been followed up or is going to be. |
| PassphraseProtocol.RecordedPassphraseOpensEveryDisk | lib/io/luks-recovery-key.ts:385-436 | In every interleaving of provisions, racing first encryptions, rotations, retirements and crashes, the record opens every finished encrypted disk, which keeps its keyfile slot and a passphrase slot. |
| PassphraseProtocol.StepKeepsFleetOpen | lib/io/luks-recovery-key.ts:452-748 | The same for one step, as an equivalence: only restoring a volume or the database can break it. |
| PassphraseProtocol.RestoreIsHarmlessIff | lib/server/http/mgmt.ts:1210-1236 | Over every run without a restored database, bringing a retired disk back is harmless exactly when the last passphrase recorded reached it. |
| PassphraseProtocol.RestoreDatabaseIsHarmlessIff | lib/io/luks-recovery-key.ts:385-436 | Over every run, going back to any record is harmless exactly when every disk in service, those encrypted since included, has kept a slot for what it names. |
| PassphraseProtocol.TallyIsSlots | lib/io/luks-recovery-key.ts:663-748 | How often any disk carries a passphrase is told by the headers written, and the slots added and removed, alone. |
| PassphraseProtocol.UnsealedOpensEveryDisk | lib/io/luks-recovery-key.ts:128-157 | In every harmless run, a passphrase the seal gives out opens every finished encrypted disk. |
| PassphraseProtocol.RestoredDiskMissedTheRotation | lib/server/http/mgmt.ts:1210-1236 | A run in which a restored disk is in service on a passphrase nobody recorded. |
| PassphraseRotation.Fleet.AddTo | lib/io/luks-recovery-key.ts:663-686 | One disk: exactly what is on it after its turn, and that it succeeds exactly when the disk proves that it has the new passphrase. |
| PassphraseRotation.AcceptedIff | lib/io/luks-recovery-key.ts:581-660 | Exactly when a rotation is accepted. |
| PassphraseRotation.Fleet.Rotate | lib/io/luks-recovery-key.ts:581-748 | Call by call, whatever fails: which disks are written, whether the record and the seal are, from which disks the old passphrase goes, and whether it finishes; a removal that fails is passed over. Every step is one of the transition system's. |
| PassphraseRotation.RotatedKeepsOpen | lib/io/luks-recovery-key.ts:690-748 | So cut anywhere, the record opens every scanned disk if it did before; keyfile and a passphrase stay; before the record every disk is part-way, after it the new passphrase is everywhere. |
| PassphraseRotation.RotatedEnds | lib/io/luks-recovery-key.ts:690-748 | If everything but removals goes well and none of them ends it, every disk ends with its old slots, plus the new passphrase if it lacked it, less one of the old exactly when its own removal landed. |
| PassphraseRotation.RerunReachesTheSameEnd | lib/io/luks-recovery-key.ts:663-686 | A rotation cut before its record, run again, ends where the first would have, with no duplicate slots, if every disk answered. |
| PassphraseRotation.DuplicateIff | lib/io/luks-recovery-key.ts:663-674 | A slot is doubled exactly when the disk had it, could not be read, and the write landed. |
| PassphraseRotation.RerunIsRefusedIff | lib/io/luks-recovery-key.ts:581-640 | After an accepted rotation the same call is refused exactly when the record was reached. |
| PassphraseRotation.CutAfterTheRecord | lib/io/luks-recovery-key.ts:581-748 | Whenever no removal takes, the old passphrase still opens every disk it did and no call with the same two passphrases is accepted again, whatever it scans. |
| PassphraseRotation.OldSlotStays | lib/io/luks-recovery-key.ts:700-748 | A concrete such rotation. |
| PassphraseRotation.AnsweredAddsOnce | lib/io/luks-recovery-key.ts:663-686 | When every disk answered, each has the new passphrase added exactly where it lacked it. |
| PassphraseProof.AssertOpensTheFleet | lib/io/luks-recovery-key.ts:857-922 | Accepts exactly when nothing is unaskable and the first disk that answers says yes, or nothing is encrypted. |
| PassphraseProof.OneDiskSpeaksForAll | lib/io/luks-recovery-key.ts:857-922 | If the disks are alike, one yes means all. |
| PassphraseProof.OneDiskCanBeOutOfStep | lib/io/luks-recovery-key.ts:857-922 | If they are not, a disk can be left out. |
| PassphraseProof.Vault.AssertFleetPassphrase | lib/io/luks-recovery-key.ts:452-554 | Accepts exactly the recorded passphrase, or a first one when nothing is encrypted, absent or unknown; refusal writes nothing. |
| PassphraseProof.Vault.AssertEncryptionIsPossible | lib/io/device-provisioner.ts:487-546 | The passphrase comes out exactly if there is a keyfile, one is given or can be unsealed, and the platters and the record both accept it; otherwise nothing is recorded. |
| PassphraseProof.OfferedIff | lib/io/device-provisioner.ts:470-513 | There is a passphrase to use exactly with a keyfile and one given, or a seal that matches the record. |
| PassphraseProof.Vault.Encrypt | lib/io/device-provisioner.ts:487-607 | Exactly when it succeeds, and what it leaves. With the record and seal rolled back to anything: if the disks are alike, success leaves a recorded passphrase that opens them all and the new one; and every step is one of the transition system's. |
| ObjectLifecycle.ReplayMeans | lib/recovery/restore.ts:519-570 | The two replay rules together restore an object exactly when it was ever named and enough slices are there. |
| ObjectLifecycle.NoPhantomsEver | lib/io/file-object.ts:191-240 | At every point of every run of commits, deletes, failures, crashes and rebuilds, a row has its slices and replay would name it. |
| ObjectLifecycle.StepIsSound | lib/io/file-object.ts:191-401 | The same for one step. |
| ObjectLifecycle.DeletedStaysDeleted | lib/io/file-object.ts:338-401 | A delete that reported success is never undone, if success meant too few slices are left. |
| ObjectLifecycle.SuccessfulDeleteComesBackIff | lib/io/file-object/destroyer.ts:14-27 | It comes back exactly when enough slices are left. |
| ObjectLifecycle.UnlinkErrorsAreSwallowed | lib/io/file-object/destroyer.ts:14-27 | A run in which a deleted object is back, for every geometry. |
| ObjectLifecycle.FailedInsertLeavesAPhantomIff | lib/io/file-object.ts:216-240 | The cleanup of a failed insert leaves a row without slices exactly when the insert took effect. |
| ObjectLifecycle.DishonestInsertMakesAPhantom | lib/io/file-object.ts:216-240 | A run that ends so. |
| FileObject.FileObject.Commit | lib/io/file-object.ts:191-240 | Succeeds exactly when all three writes do; what slices, journal, row and flags are afterwards in every case. |
| FileObject.FileObject.Delete | lib/io/file-object.ts:338-401 | Exactly when it succeeds, which stage is reached, and what slices, row and journal are afterwards in every case; a row that stays keeps every slice and its name; when a replay would bring it back. |
| Manifest.NewestOnDisk | lib/io/bootstrap-manifest.ts:325-382 | The most recent manifest that may be believed among those that can be read, by the right clock, and whether one was silent. |
| Manifest.MergeIsTheNewer | lib/io/bootstrap-manifest.ts:480-540 | The merge has a pointer at least as recent as both sides and invents none. |
| Manifest.ShapesAreIgnored | lib/io/bootstrap-manifest.ts:480-540 | What is not 24 hex digits, dated and counted is no snapshot, and is never taken from a disk. |
| Manifest.SnapshotsAreTaken | lib/io/bootstrap-manifest.ts:480-540 | And everything that is one is taken where nothing is known. |
| Manifest.JournalLocationIff | lib/io/bootstrap-manifest.ts:514-540 | The journal location a merge keeps: ours once the running journal has spoken; before, the disk's exactly when it names one in a dated manifest and ours is from nowhere or an older one. |
| Manifest.PassNeverRegresses | lib/io/bootstrap-manifest.ts:432-565 | No disk comes out of a pass with an older pointer. |
| Manifest.PassInventsNothing | lib/io/bootstrap-manifest.ts:432-565 | Every pointer on a disk after a pass was on a disk or in memory before it. |
| Manifest.BootstrapManifestWriter.WriteOnce | lib/io/bootstrap-manifest.ts:432-565 | One pass: each target is rewritten with the merge or left alone, no disk's high-water mark goes down, and where each rewritten disk says the journal is. |
| Manifest.JournalSpeaks | lib/io/bootstrap-manifest.ts:155-179 | Once the running journal has said where it is, the next pass leaves that on every disk it rewrites. |
| Manifest.BootstrapManifestWriter.HydrateFromDisk | lib/io/bootstrap-manifest.ts:209-303 | Across any calls before: the pointer and its fallback come from one disk of ours and are the newest of those read; with none to be had they stay, and exactly then a silent disk makes hydration incomplete; the journal location is taken over exactly where there is none, from the manifest written last. |
| Manifest.BootstrapManifestWriter.Restart | lib/io/bootstrap-manifest.ts:100-137 | A restart forgets everything the process knew and changes no disk. |
| Manifest.BootstrapManifestWriter.Rack | lib/io/bootstrap-manifest.ts:56-75 | A disk may be put in with anything on it; the other disks' marks stay. |
| Manifest.BootstrapManifestWriter.SetSnapshots | lib/io/bootstrap-manifest.ts:181-184 | The snapshot job may set any pointer, also an older one; the marks on the disks stay. |
| Manifest.BootstrapManifestWriter.SetJournalVolumeIds | lib/io/bootstrap-manifest.ts:155-179 | An empty journal location changes nothing. |
| Manifest.ForeignPointerIsTakenInIff | lib/io/bootstrap-manifest.ts:480-540 | Another array's pointer comes out of the merge under our identity exactly when it is usable and newer than ours. |
| Manifest.ForeignDiskIsRacked | lib/io/bootstrap-manifest.ts:209-565 | After a pass over any disks that reaches it, a restart and a hydration from any disks that reads it, with anything failing on the others, theirs is the snapshot to restore from exactly when it was usable and newer than ours and no other disk read names a newer one; for any state of the writer. |
| Manifest.ForeignPointerBecomesOurs | lib/io/bootstrap-manifest.ts:209-565 | A concrete such course of events. |
| ManifestWrites.ResolvedMeansSeen | lib/io/bootstrap-manifest.ts:411-430 | A resolved write() means a pass that started after the call is over. |
| ManifestWrites.ExactlyOneFollowUp | lib/io/bootstrap-manifest.ts:411-430 | Any number of calls during a pass cause exactly one follow-up, and none causes none. |
| ManifestWrites.PassesAreAskedFor | lib/io/bootstrap-manifest.ts:411-430 | There are never more passes than calls. |
| ManifestWrites.NobodyIsForgotten | lib/io/bootstrap-manifest.ts:411-430 | A caller still waiting waits for a pass that is over or in flight. |
| ManifestWrites.AnyoneMayCall | lib/io/bootstrap-manifest.ts:411-430 | A call may be made at any time, and a pass is in flight from then on. |
| Stripe.Plan.PopulateDerivedFields | lib/io/plan.ts:31-53 | Fills every derived field or refuses an unconfigured plan. |
| Stripe.Plan.ComputeSliceSize | lib/io/plan.ts:26-53 | Chunk sizes are multiples of 8, the first fits with both headers, the last is between nothing and a standard chunk, and together they are a slice's share rounded up to 8. |
| Stripe.DerivedIsWellShaped | lib/io/plan.ts:31-53 | The same of the formulas, for every size from 1, slice count from 1 and chunk size that is a multiple of 8 from 72. |
| Stripe.PaddingIsSmall | lib/io/plan.ts:42-52 | The chunk sets cover the file with fewer than 8 bytes of padding per slice. |
| Stripe.RowAgreesWithPlan | lib/database/content-repository.ts:581-644 | The database's slice-size formula equals the plan's; its outer maximum never decides. |
| Stripe.RowWithFieldsMissing | lib/database/content-repository.ts:581-644 | A stored size is taken as it is, and what a missing field counts as. |
| Stripe.StreamExceedsReservation | tools/parity-decode-test.js:17-27 | The stream exceeds the reserved size by 0 to 7 bytes, or by exactly 23, and exactly when. |
| Striping.ChunkSizes | tools/parity-decode-test.js:17-22 | The sizes of one slice's chunks add up to its data. |
| Striping.DecodeBlock | tools/parity-decode-test.js:24-27 | Decoding an encoded slice gives its chunks back; a block is refused exactly when it is too short. |
| Striping.Interleave | tools/parity-decode-test.js:48-51 | Reading the columns row by row and truncating gives the data. |
| Striping.DecodeFile | tools/parity-decode-test.js:43-51 | Striping any file over any chunk sizes with any padding, then decoding, interleaving and truncating, returns the file. |
| Striping.EveryFileCanBeStored | lib/io/plan.ts:31-53 | Every file of at least one byte has such a stored form under its plan, so the round trip holds for every size, slice count and chunk size the plan is for. |
| Planner.BalancedIsOptimal | lib/io/planner.ts:41-56 | A balanced choice minimises the largest number of slices in one group over all choices of as many volumes. |
| Planner.AlternatingOrder | lib/io/planner.ts:70-101 | The round-robin ends, with a permutation of its input, every prefix of which is balanced and takes the freest of each group. |
| Planner.LevelIsFair | lib/io/planner.ts:88-99 | At every moment of every round the choice so far is balanced. |
| Planner.GeneratePlan | lib/io/planner.ts:10-68 | Distinct volumes, refused exactly when there are too few, optimal, and charged for their slices. |
| Buckets.ResolveBucket | lib/database/content-repository.ts:869-899 | The memoised walk ends on every parent map and equals the root ancestor, or none on an orphan or a cycle, and its cache stays true. |
| Buckets.BucketOfChild | lib/database/content-repository.ts:869-899 | A container is in its parent's bucket. |
| Buckets.BucketOfCycle | lib/database/content-repository.ts:880-883 | A cycle has no root. |
| ContentRepository.Backfill | lib/database/content-repository.ts:849-957 | Stamps exactly what lacks a bucket and has one; the counts are the sizes of those sets, dry run or not. |
| ContentRepository.SecondRunStampsNothing | lib/database/content-repository.ts:842-848 | After a backfill another has nothing to do. |
| ContentRepository.BackfillIsTrue | lib/database/content-repository.ts:842-848 | It only adds; every stamped container's bucket is its root ancestor; an object that lacked one gets its container's. |
| ContentRepository.InsertIsTrue | lib/database/content-repository.ts:753-763 | A new container stamped on creation is stamped with its root ancestor, and no other stamp becomes false. |
| ContentRepository.ContentRepository.ResolveContainerWithBucket | lib/database/content-repository.ts:709-839 | However it ends, all stamps are true and everything created has one; the container is where the path leads and the bucket is its bucket; no second document of a name is made, and a path that leads somewhere is followed without making any. |
| ContentRepository.LeadsToOne | lib/database/content-repository.ts:709-839 | With no two documents of one name in one container, a path leads to one place at most. |
| ContentRepository.ContentRepository.BackfillBucketIds | lib/database/content-repository.ts:849-957 | The same on the collection, keeping the stamps and the cache true. |

## Left out

* The journal's `reelectionNeeded` flag, notifications, the publishing of the replica location and `stop()`: no safety claim rests on them.
* Journal records are lines without an inner newline; their JSON is not modelled. The replay of containers and of bucket policies is not modelled.
* That an append found the gate open and queues before a re-election chained after it drains is a property of the microtask queue, assumed in `JournalGate` as `InOrder` and shown to be needed.
* Lineage grouping compares a bounded probe by design, so it is modelled as it is and not claimed to be an equivalence.
* Wipe-guard probing, disk-swap fencing, path-versus-identity checks and the audit: they decide which calls fail, and failure is a parameter here.
* Two encryptions of one disk at the same time: the model assumes a provision's target is nobody else's.
* A removal of a keyslot is taken to remove a slot of the passphrase it was given, or nothing.
* The plan for an empty file: its end chunk comes out negative in the source.
* Container deletion does not invalidate the path cache in the model, since no container is deleted in it.
* The slice writer and reader, Reed-Solomon, `Volume`, `VolumeFleet`, drain, rebalance, HTTP, configuration and tools.
* The snapshot a restore starts from: an object named by it counts as named by an earlier journal record.
* The results about removing an unmounted disk speak of one array with one log; foreign journals on other disks are covered only by the mounted check.
