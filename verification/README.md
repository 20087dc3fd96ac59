# Kadalu storage: the volume lifecycle and its neighbours, verified

Kadalu provisions Kubernetes volumes out of GlusterFS pools. This project models the parts of it
that must stay right when processes crash, retry and interleave, and proves what they promise.

**The lifecycle of a volume in one shared pool** is a small write-ahead protocol over three kinds of
file, with a rebuildable SQLite index (`stat.db`) on top.

* `Records` and `Rebuild` are the walk over the `info` directory and the repair of the index, as loops
  proved against a fold; `Accounting` is the class that owns the index.
* `Lifecycle` is the pool as a state machine. Every durable write is one action, an index transaction
  is its `BEGIN IMMEDIATE`, its file write and its commit, and any action of any process may come
  next. A crash is a process that takes no further action, or an aborted transaction.
* `Paths` is what a run is, and a history: a run from an empty pool that keeps to the assumptions below.
  `Safety`, `Admission`, `Runs` and `Guarantees` prove what holds at every moment of every history.
* `Expanders` has expansions as processes that capture a size, decide on it and write later, and proves
  that their runs are histories as long as each holds the volume's lifecycle lock. `LateWrites` says for
  each of those writes exactly when it keeps a pool consistent, lock or no lock.
* `Operations`, `Removal` and `Archiving` prove that each operation can be retried from every crash
  point, with everything other volumes do in between.
* `HostingPool` is the pool as one controller process works on it: a class whose methods follow the
  code's branches. Each durable write is a method that takes the next action of a plan, so a call is
  proved to perform exactly its plan and to leave exactly the state `Outcomes` says; dying inside it
  leaves a prefix.
* `SoloExpansion` proves that the process of `Expanders`, left alone, ends where that method does.
* `Hazards`, `Unlocked` and `Leaks` show where the code's own checks are not enough, each with a run from an
  empty pool and the exact condition.

**Ownership and locking.** `Controllers` has any number of processes search all pools one by one,
metadata first and intent second, wait for locks and compare what they saw, and `Solitary` shows that each gets its
work done when nobody disturbs it; `SinglePv` is the claim on a pool dedicated to one volume;
`TargetLocks` is the node plugin's table of reference-counted locks.

**Two operator protocols.** `Rollout` applies the servers of a pool behind self-heal checks;
`PoolDeletion` removes a pool behind the provisioner fence.

**Names and lists.** `Names` is the codec and directory layout that "one file per volume" rests on;
`Pager` is ListVolumes.

## Assumptions

`Lifecycle.Assumed`, `Expanders.Trusted` and the notes here are everything that is taken for granted.

* An expansion gets to work only if both searches of its decorator met the volume, so that it holds the
  volume's lifecycle lock. The code does not see to that: with nothing found, before the lock or under it,
  ControllerExpandVolume runs all the same. `Expanders.RunIsHistory` proves that the guard is enough for
  every capture to stay true; `LateWrites` says exactly what each write needs without it; and `Unlocked`
  has runs from an empty pool that reserve and enforce 130 bytes of 100, shrink a volume, and leave a
  payload nothing pays for.
* A walk of the `info` directory is one snapshot, and a pool's total is constant.
* Creates of one name are serialized, so an admission knows that nothing holds the name. The identity
  lock gives this, and `Controllers.AdmittedOnlyWhenAbsent` proves it.
* A volume is expanded only after its create has answered OK. Nothing in the code checks that the
  create intent is gone. A finished call needs no such assumption: `Outcomes.ExpandCallKeepsInvIff` says
  exactly when it leaves the pool consistent, and `Hazards.LeftoverIntentBlocksThePool` and
  `Hazards.OutgrownBlocksThePool` show what follows when it does not.
* While an archive is being reclaimed, past the removal of its payload, no create or expansion of the
  volume it came from is pending. The code skips the intents of tombstoned ids;
  `Hazards.ReclaimHidesPendingCreate` is a run that overcommits, and
  `Admission.ReservationsAreDurableIff` says exactly when the code's reservations are the durable ones.
  Here too a finished reclaim needs no assumption (`Outcomes.ReclaimedKeepsInv`).
* The reclaim policy does not change between a crash and its retry. A half-archived volume is refused
  by the delete branch, as in the code.
* `stat.db` may charge more than the files stand for after a crash, never less at an admission. A crash
  right before a cancelled create commits leaves its row; it stays for good exactly when
  `Leaks.CancelLeaksForGoodIff` says, and then the name can never be created again
  (`Leaks.LeakedNameIsLost`).

Further places where the code does less than its comments suggest. The expansion whose search met nothing
may work on another generation of the volume, in a pool it holds no lock of (`Controllers.GenerationSafety`,
`Controllers.LockedMissRewritesAnother`, `Controllers.FirstMissRewritesUnlocked`). A search without the locks
can miss a volume that is just being committed, and a delete then answers that there is nothing to delete
(`Controllers.MissesOnlyUnlocked`, `Controllers.DeleteMissesVolume`). `search_volume` can report a duplicate that never existed, to a
process that does not hold the identity lock (`Controllers.StaleSearchReportsDuplicate`,
`Controllers.DuplicateMeansGone`). The record identity that pool deletion compares again leaves
`provisioning_disabled` out (`PoolDeletion.DestroyedTombstonedIff`, `PoolDeletion.LiftedTombstoneIsDestroyed`).
And a row can leak, as above.

## Model

| member | source | states |
|---|---|---|
| Accounting.SizeAccounting.BeginImmediate | lib/kadalulib.py:530-536 | a second transaction on the same connection is refused |
| Accounting.SizeAccounting.CommitTransaction | lib/kadalulib.py:537-545 | every change made inside a transaction becomes visible to others at once |
| Accounting.SizeAccounting.RollbackTransaction | lib/kadalulib.py:539-541 | an exception inside a transaction discards them all |
| Accounting.SizeAccounting.CommitStatement | lib/kadalulib.py:525-528 | inside an explicit transaction a statement publishes nothing |
| Accounting.SizeAccounting.UpdateSummary | lib/kadalulib.py:559-578 | only a positive total is stored, and no row changes |
| Accounting.SizeAccounting.UpdatePvRecord | lib/kadalulib.py:580-600 | only a positive size is stored, absolutely and not added, and published only outside a transaction |
| Accounting.SizeAccounting.RemovePvRecord | lib/kadalulib.py:602-606 | exactly one row goes |
| Accounting.SizeAccounting.RenamePvRecord | lib/kadalulib.py:608-627 | both old rows give way to one row of the given size |
| Accounting.SizeAccounting.GetPvSize | lib/kadalulib.py:629-636 | zero means, and only means, that there is no row |
| Accounting.SizeAccounting.GetStats | lib/kadalulib.py:638-658 | used bytes are the sum of all rows, free bytes the rest of the total |
| Records.CapacityMetadataRecords | csi/volumeutils.py:1091-1224 | the walk computes the fold `Parse`, and fails exactly when the fold does, wherever the bad file is |
| Records.OverlayCreations | csi/volumeutils.py:1191-1203 | succeeds iff every intent that no tombstone hides agrees with committed metadata, and reserves their exact sizes |
| Records.OverlayExpansions | csi/volumeutils.py:1205-1222 | succeeds iff every visible intent agrees with what is reserved, and reserves their targets |
| Records.ScanSucceedsIff | csi/volumeutils.py:1103-1187 | the walk fails iff some file is bad or two claim one record or one intent, wherever it meets them |
| Records.OrderIsIrrelevant | csi/volumeutils.py:1103-1224 | any two orders of the same files, bad ones and duplicates included, give the same records or the same failure |
| Rebuild.RebuildCommittedCapacity | csi/volumeutils.py:1233-1260 | the repaired index is a function of the old rows and the files; a failed walk changes nothing |
| Rebuild.RebuiltCovers | csi/volumeutils.py:1233-1260 | every durable reservation is charged in full, so bytes in use are at least the durable sum |
| Rebuild.RebuiltIsIdempotent | csi/volumeutils.py:1233-1260 | rebuilding again from the same files changes nothing |
| Rebuild.RebuiltRows | csi/volumeutils.py:1233-1250 | a row goes iff a tombstone released it or it is an obsolete alias; unknown rows stay as they were |
| Admission.WalkOrderIsIrrelevant | csi/volumeutils.py:1103-1187 | what comes out for a pool of valid files is, in whatever order, the pool's own sizes, aliases and tombstones with its intents on top |
| Admission.ReservationsAreDurableIff | csi/volumeutils.py:1189-1224 | the code's reservations are the durable ones iff no tombstone hides a pending intent |
| Admission.ConsistentFilesParse | csi/volumeutils.py:1091-1224 | in every consistent state the walk succeeds and reserves exactly what the files stand for |
| Admission.WorkingCoversDurable | csi/volumeutils.py:1328-1336 | an admission decides on rows that cover every durable reservation |
| Safety.WriteKeepsFiles | csi/volumeutils.py:2298-2978 | each single durable write of create, delete, archive and reclaim keeps the files consistent, and those of an expansion while its capture is current |
| Safety.DurableEffect | csi/volumeutils.py:2641-2978 | such a write moves one reservation to an archive name, drops one behind a tombstone, or leaves all alone |
| Runs.GrantOutlivesWrite | csi/volumeutils.py:1328-1387 | an admission decision stays good until its intent is written, whatever processes that keep to the locks write meanwhile |
| Runs.IntentReserves | csi/volumeutils.py:1707-1752 | writing an intent reserves its bytes and nothing else changes |
| Runs.StepKeepsInv | csi/volumeutils.py:1328-1387 | every action of any process that keeps to the assumptions, crashes included, keeps the invariant |
| Runs.HistoryIsConsistent | csi/volumeutils.py:1328-1387 | so does every interleaving of any length, from an empty pool on |
| Guarantees.NoOvercommit | csi/volumeutils.py:1328-1387 | at every moment of every history, durable reservations never exceed the total, the pool stays readable, and the rebuilt index covers them |
| Guarantees.EveryPayloadIsPaid | csi/volumeutils.py:2376-2421 | every payload, active or archived, has a durable reservation of its own of at least its enforced limit |
| Guarantees.LimitsFitThePool | csi/volumeutils.py:2396-2413 | enforced quotas and file sizes together never exceed the pool |
| Guarantees.NeverShrinks | csi/controllerserver.py:1517-1520 | over any sequence of requests a committed size never decreases |
| Guarantees.OnlyRemovalReleases | csi/volumeutils.py:2945-2972 | an id stops reserving only when its payload is gone behind a tombstone, or its whole reservation moved to an archive name |
| Guarantees.RebuildDuringDelete | csi/volumeutils.py:1173-1185 | a rebuild at any moment of a delete keeps the row while the payload exists and never resurrects it afterwards |
| Guarantees.RebuildDuringReclaim | csi/volumeutils.py:1173-1185 | the same for the reclaim of an archive |
| Guarantees.ReservedRowsStay | csi/volumeutils.py:1233-1260 | while an id reserves, no run of anything takes its accounting row away |
| Guarantees.RecreatedVolumeKeepsRow | csi/remove_archived_pv.py:66-130 | a recreated volume keeps its record and row through every step of reclaiming its old archive |
| LateWrites.LateQuotaIffCovered | csi/volumeutils.py:2481-2513 | a quota set without the lock keeps the files consistent iff a record or pending create at that path pays for it |
| LateWrites.LateSizeIffCarried | csi/volumeutils.py:2596-2618 | a size written without it does iff the record there can bear it |
| LateWrites.LateQuotaKeepsInvIff | csi/volumeutils.py:2481-2513 | in any consistent pool, a quota set without the lock keeps it consistent iff a record or pending create at that path pays for it, no cancellation is about to unlink that create, and there is room for what it brings back |
| LateWrites.LateSizeKeepsInvIff | csi/volumeutils.py:2596-2618 | the same for a size written into whatever metadata is there: iff its payload and intents bear it, an open admission still agrees, and there is room for what it adds |
| LateWrites.LateFinishKeepsInvIff | csi/volumeutils.py:1929-1939 | and for unlinking the intent: iff the limit in force is within the committed size |
| LateWrites.CurrentIsSafe | csi/volumeutils.py:2481-2618 | what is still as captured meets those conditions and adds nothing |
| Expanders.StepIsAssumed | csi/controllerserver.py:1443-1700 | in a world where expansions hold their locks, every step of any of them or of anybody else is one the histories allow, and what each captured stays true |
| Expanders.RunIsHistory | csi/controllerserver.py:145-185 | if expansions work only with both searches met, every run of any number of them, with their captured targets, interleaved with everything else, is a history |
| Expanders.GuardedWritesAreCurrent | csi/controllerserver.py:1683-1710 | in particular every quota, size and unlinking comes while what it was decided on is still so |
| Expanders.GuardedRunsFit | csi/controllerserver.py:1429-1710 | so in all those runs reservations and limits fit the pool and every payload is paid for |
| Expanders.GuardedRunsNeverShrink | csi/controllerserver.py:1429-1710 | and no volume shrinks |
| SoloExpansion.ProcessAgreesWithCall | csi/controllerserver.py:1553-1710 | for every request that is granted the process, left alone, ends where the call does, whether it grows, resumes or repairs |
| Unlocked.LateTargetOvercommits | csi/controllerserver.py:1425-1453 | a concrete run from an empty pool of 100 bytes in which an expansion without the lock makes it reserve and enforce 130 |
| Unlocked.LateSizeShrinks | csi/volumeutils.py:2596-2618 | one in which it shrinks a volume from 60 bytes to 50 |
| Unlocked.LateQuotaLeavesOrphan | csi/volumeutils.py:2502-2513 | and one in which it leaves a payload nothing pays for |
| Hazards.ReclaimHidesPendingCreate | csi/volumeutils.py:1181-1193 | a concrete run from an empty pool, allowed by the code, that reserves 160 bytes in a pool of 100 |
| Hazards.GrowKeepsParsingIff | csi/volumeutils.py:1191-1199 | committing an expansion keeps the pool readable iff no visible create intent is left |
| Hazards.ExpandOvertakesCreate | csi/volumeutils.py:1848-1927 | an expansion admitted beside a leftover create intent ends in a state the walk rejects |
| Hazards.OutgrownBlocksThePool | csi/volumeutils.py:1195-1199 | from there no run that keeps to the locks ever admits anything into the pool again |
| Hazards.LeftoverIntentBlocksThePool | csi/volumeutils.py:1848-1927 | a concrete run from an empty pool: create, crash before the intent goes, expand, and the pool cannot be read any more |
| Leaks.CancelLeaksForGoodIff | csi/volumeutils.py:2834-2851 | at any moment of any history, a crash right before a cancellation commits leaves a row that no later run ever loses iff the create was charged and no archive of the name exists |
| Leaks.CancelledThenCrashedLeaks | csi/volumeutils.py:2834-2851 | a concrete run from an empty pool in which it does |
| Leaks.LeakedNameIsLost | csi/volumeutils.py:1360-1366 | the name of such a row is refused by every later create |
| Operations.RequestedCapacity | csi/controllerserver.py:327-350 | a size is chosen iff the range is well formed: the least it allows, or its limit if it names no least |
| Operations.GoneRowStays | csi/volumeutils.py:1233-1260 | a released row is brought back by no rebuild while its id reserves nothing |
| Operations.CreateIsCrashIdempotent | csi/volumeutils.py:2298-2427 | from every crash prefix, interleaved with anything else, one more attempt ends with the same size and incarnation, its quota, no intent, one charge, and every other volume as it was |
| Operations.ExpandIsCrashIdempotent | csi/controllerserver.py:1585-1700 | from every crash prefix a retry ends with metadata, quota and row at the target and no intent, without a second admission |
| Removal.DeleteIsCrashIdempotent | csi/volumeutils.py:2854-2978 | from every crash prefix a retry ends with no payload, metadata, intent or row, and every other volume as it was |
| Removal.SettleLeads | csi/volumeutils.py:2869-2912 | before removal, metadata takes over what the pending intent reserved |
| Removal.CancelLeaksIff | csi/volumeutils.py:2831-2851 | a committed cancellation leaves nothing; a crash before its commit leaves the row iff it was charged |
| Archiving.ArchiveStageReserves | csi/volumeutils.py:2725-2757 | at every crash point exactly one metadata record, one payload location and one reservation of the full size |
| Archiving.ArchiveIsCrashIdempotent | csi/volumeutils.py:2689-2769 | at any moment of any history, an archive resumes from every crash point to the state of an uninterrupted one, under the same name and limit |
| Archiving.ArchiveFromHome | csi/volumeutils.py:2725-2769 | archiving moves the whole reservation, a pending expansion's target included, to the fresh name |
| Archiving.ReclaimIsCrashIdempotent | csi/remove_archived_pv.py:84-130 | at every crash point either nothing of the archive is left, or one more attempt removes exactly that archive |
| Archiving.ReclaimFreesTheArchive | csi/remove_archived_pv.py:112-130 | what a reclaim frees is exactly what the archive reserved |
| Outcomes.AdmissionDecides | csi/volumeutils.py:1343-1375 | a pending intent of this size is granted whatever the rows and the free bytes are, one of another size is an error; without an intent a row is an error, and room is nine tenths of the free bytes |
| Outcomes.RoomIsNineTenths | csi/volumeutils.py:1370-1375 | that comparison is the one with the free bytes less ten percent of them |
| Outcomes.TargetDecides | csi/volumeutils.py:1889-1927 | without an intent a row at the target is granted without room, one at the source iff there is room for the difference, any other or none is an error |
| Outcomes.AdmissionEnds | csi/volumeutils.py:1328-1387 | a fresh grant leaves the intent and its row, a repeated one or a lack of room the rebuilt index, an error nothing; each is reached by the admission's own actions and keeps the invariant |
| Outcomes.ExpandAnswers | csi/controllerserver.py:1429-1710 | every OK answer lies in the requested range and at or above the committed size, with all records at it; any other leaves the files alone |
| Outcomes.ExpandAnswersIff | csi/controllerserver.py:1443-1670 | the answer to every request in every state: refused for its range, its holder, a pending create or another target, granted at the pending target or at the size it has, and a new target iff the difference is less than nine tenths of the free bytes |
| Outcomes.ExpandLeaves | csi/controllerserver.py:1560-1710 | an OK leaves metadata, quota and row at the answered size and no intent, exhaustion the rebuilt index, a refusal nothing; nothing else changes |
| Outcomes.NewTargetLeads | csi/controllerserver.py:1553-1710 | a new target there is room for is reached by reserving intent and row together, then quota, metadata and intent in that order |
| Outcomes.ExpandIsExhaustedIff | csi/controllerserver.py:1553-1670 | a retry of the pending target is always granted; a new target is refused iff the rebuilt index lacks room |
| Outcomes.ExpandCallKeepsInvIff | csi/controllerserver.py:1429-1710 | the whole call keeps the invariant iff it does not grow a volume whose create intent is left |
| Outcomes.DeletedKeepsInv | csi/volumeutils.py:2924-2972 | a delete keeps it |
| Outcomes.ArchivedKeepsInv | csi/volumeutils.py:2725-2769 | and an archive |
| Outcomes.ReclaimedKeepsInv | csi/remove_archived_pv.py:84-130 | and a finished reclaim, whatever is pending under the volume's name |
| HostingPool.Pool.WalkInfo | csi/volumeutils.py:1103-1106 | a walk in any order yields the pool's records |
| HostingPool.Pool.FindHolder | csi/volumeutils.py:3092-3150 | the search finds metadata iff some record holds the name |
| HostingPool.Pool.HasSpace | csi/volumeutils.py:1368-1375 | room means strictly less than nine tenths of the total less the sum of all rows |
| HostingPool.Pool.AdmitVolumeCreation | csi/volumeutils.py:1328-1387 | decides as `Outcomes.AdmissionDecides` says, on the index it has just rebuilt; intent and row appear together |
| HostingPool.Pool.CreateVolume | csi/volumeutils.py:2298-2427 | goes on iff this volume is committed with this size or its create pends with it; then performs exactly its plan, to the exact final state |
| HostingPool.Pool.ReserveNewTarget | csi/volumeutils.py:1898-1927 | a row at the target needs no room, one at the source needs room for the difference, any other is an error |
| HostingPool.Pool.ReserveAndGrow | csi/volumeutils.py:1870-1896 | a matching intent is granted without looking at free space; then quota, metadata and intent change in that order |
| HostingPool.Pool.ExpandVolume | csi/controllerserver.py:1429-1710 | answers and leaves what `Outcomes.ExpandAnswersIff` and `Outcomes.ExpandLeaves` say, for every request and every state of the pool |
| HostingPool.Pool.EraseVolume | csi/volumeutils.py:2924-2972 | tombstone, payload, row, metadata, in that order, resuming where an earlier attempt stopped |
| HostingPool.Pool.PrepareArchiveOf | csi/volumeutils.py:2689-2757 | the archive name is durable before payload, row and metadata move |
| HostingPool.Pool.ResumeArchive | csi/volumeutils.py:2641-2769 | each side of the handoff that is already done is skipped |
| HostingPool.Pool.CancelCreation | csi/volumeutils.py:2800-2851 | payload first, then row and intent in one transaction |
| HostingPool.Pool.DeleteVolume | csi/volumeutils.py:2981-3009 | the exact final state for each reclaim policy, and the refusal of a half-archived volume |
| HostingPool.Pool.DeleteArchivedPvs | csi/remove_archived_pv.py:66-130 | exactly the listed archives are gone, and everything else is as it was |
| Controllers.StepKeepsInv | csi/controllerserver.py:129-199 | every step of every process keeps what each of them knows |
| Controllers.OneHomeAlways | csi/volumeutils.py:3235-3288 | at most one pool ever holds a name, so an interrupted create never moves |
| Controllers.GenerationSafety | csi/controllerserver.py:145-185 | a create or delete changes only the incarnation it observed before waiting, in the pool it observed it in, under that pool's lock; an expansion does iff both searches around the lock met the volume |
| Controllers.MissedMeansAnother | csi/controllerserver.py:147-167 | otherwise it rewrites another incarnation, the observed one being gone from every pool |
| Controllers.LockedMissRewritesAnother | csi/controllerserver.py:1425-1453 | a concrete run in which an expansion, holding the lock of one pool, rewrites a new volume in another while its create is at work there |
| Controllers.FirstMissRewritesUnlocked | csi/controllerserver.py:147-149 | and one in which it holds no lock at all |
| Controllers.AdmittedOnlyWhenAbsent | csi/controllerserver.py:285-312 | a create is admitted only while no pool holds the name |
| Controllers.DuplicateMeansGone | csi/volumeutils.py:3269-3287 | a reported duplicate only ever means that the volume met first is already gone, and never to the holder of the identity lock |
| Controllers.MissesOnlyUnlocked | csi/volumeutils.py:3249-3288 | a search passes a volume that is there only between its looks for metadata and for the intent, and neither a create nor a search under that pool's lifecycle lock ever does |
| Controllers.DeleteMissesVolume | csi/volumeutils.py:3012-3017 | a concrete run in which a delete does, and has nothing to delete |
| Controllers.StaleSearchReportsDuplicate | csi/volumeutils.py:3249-3276 | a concrete run in which that happens although no two pools ever held the name |
| Solitary.CreateMakes | csi/controllerserver.py:285-312 | left alone, a create of a name no pool holds commits it in whatever pool admits it |
| Solitary.CreateResumes | csi/controllerserver.py:145-185 | an interrupted create is finished by the next, in the pool its intent is in |
| Solitary.ExpansionRewrites | csi/controllerserver.py:145-185 | an expansion of a live volume gets to work under its pool's lock, both searches met |
| Solitary.UnfitVolumeIsRefused | csi/controllerserver.py:1465-1474 | an unfinished removal is refused by a create and an expansion, an unfinished create by an expansion |
| Solitary.DeleteRemoves | csi/volumeutils.py:3012-3055 | a delete removes a volume in whatever state |
| SinglePv.ClaimOnlyAdvances | csi/volumeutils.py:638-763 | over every interleaving the owner never changes and the claim never goes back |
| SinglePv.OneTenant | csi/volumeutils.py:684-691 | every publish that ever succeeds on a pool is for one and the same volume |
| SinglePv.MountsOnlyWhileOwned | csi/nodeserver.py:479-528 | every mount, of a first publish or a later one, happens under the pool lock while the claim is active and the publisher's |
| SinglePv.DeletingStopsMounts | csi/volumeutils.py:728-745 | once a delete has begun no publish succeeds any more, however far it had got |
| SinglePv.RetiresOnlyAfterPurge | csi/volumeutils.py:2777-2792 | a claim retires only from deleting, after a purge that then found the pool empty |
| SinglePv.ClaimsOnlyEmptyOrLegacy | csi/volumeutils.py:638-725 | a claim is set only on a pool seen empty, or for the volume the operator named |
| SinglePv.OwnerMounts | csi/nodeserver.py:479-528 | left alone, a publish of the volume with the active claim, or of the one named for an unclaimed pool, mounts exactly once |
| SinglePv.StrangerIsTurnedAway | csi/volumeutils.py:704-725 | any other is turned away and changes nothing |
| SinglePv.EmptyPoolIsClaimed | csi/volumeutils.py:632-681 | a pool without claim or data is claimed |
| SinglePv.UsedPoolIsNotClaimed | csi/volumeutils.py:650-660 | a pool with either is left as it is |
| SinglePv.OwnerRetires | csi/volumeutils.py:2777-2792 | left alone, the owner's delete purges whatever is in the pool and retires the claim, from wherever an earlier delete stopped |
| SinglePv.StrangerDeletesNothing | csi/volumeutils.py:2779-2788 | nobody else's delete touches the pool |
| TargetLocks.MutualExclusion | csi/nodeserver.py:41-61 | at most one thread is inside for a path, although entries come and go |
| TargetLocks.CountIsUsers | csi/nodeserver.py:45-50 | all threads of a path share the table's entry, and its count is their number |
| TargetLocks.TableIsInUse | csi/nodeserver.py:56-61 | a path is in the table iff some thread is inside for it |
| TargetLocks.WaitersCanProceed | csi/nodeserver.py:52-57 | a waiting thread can take its lock, or waits for a thread that can release it |
| TargetLocks.FreePathIsEntered | csi/nodeserver.py:41-61 | for a path nobody uses a thread gets in, and out again without a trace in the table |
| Names.Utf8RoundTrip | lib/kadalulib.py:335-337 | strict UTF-8 decoding gives back every string |
| Names.BytesRoundTrip | lib/kadalulib.py:335-338 | dropping the padding loses nothing |
| Names.EncodesLikeTheStandard | lib/kadalulib.py:335-337 | the encoder agrees with the examples of section 7 of RFC 3629 |
| Names.EncodesLikeTheVectors | lib/kadalulib.py:335-338 | the base64 agrees with the test vectors of section 10 of RFC 4648 |
| Names.ComponentRoundTrip | lib/kadalulib.py:326-364 | decoding gives back every valid CSI name |
| Names.ComponentIsInjective | lib/kadalulib.py:326-338 | no two valid names share a component, raw and encoded together |
| Names.OnlyUnsafeNamesAreEncoded | lib/kadalulib.py:326-338 | a valid name stands for itself iff it is no dot name, does not look encoded, and has neither slash nor tab nor line break |
| Names.DecodedComponentsAreCanonical | lib/kadalulib.py:341-364 | whatever the lenient decoder accepts is the encoding of the name it returns |
| Names.PathIsBucketed | lib/kadalulib.py:367-387 | a volume is two hash directories below its type, an encoded name one directory deeper |
| Names.LegacyPathIff | lib/kadalulib.py:390-407 | besides it counts the path an old release gave the name, iff the name is one plain component |
| Names.PathsAreDisjoint | lib/kadalulib.py:367-407 | canonical and legacy paths of two names of a type never meet, for any hash whose first four characters are neither `/` nor `.` |
| Names.ValidIdentifiers | lib/kadalulib.py:303-319 | a CSI name is 1 to 128 bytes of UTF-8 without control characters other than tab and line breaks |
| Rollout.DeployServerPods | kadalu_operator/main.py:3285-3402 | the calls made are a prefix of the plan; the rollout succeeds, with all of it, iff every call of the plan does; a heal-gated pool without an Apps client is not touched |
| Rollout.EveryServerOnce | kadalu_operator/main.py:3352-3378 | a complete rollout makes the Service first and applies every server exactly once |
| Rollout.RecoveryFirst | kadalu_operator/main.py:3352-3373 | of a heal-gated pool the missing and the unavailable members come first, and both kinds in brick order |
| Rollout.UngatedRollout | kadalu_operator/main.py:3366-3373 | any other pool is applied in brick order without waiting for a heal |
| Rollout.HealsOnlyOnceAllServe | kadalu_operator/main.py:3388-3402 | however far it gets, no heal is waited for before every missing or unavailable member serves |
| Rollout.HealthyOnlyAfterCleanHeal | kadalu_operator/main.py:3373-3402 | no healthy member of a heal-gated pool is touched unless the event right before is a clean pool-wide heal |
| Rollout.CompleteRolloutEndsClean | kadalu_operator/main.py:3388-3402 | a complete gated rollout ends healed |
| Rollout.OneServerAtATime | kadalu_operator/main.py:3378-3387 | with an Apps client the event after an apply is that server serving again, and a complete rollout has waited for every one |
| Rollout.NothingTwice | kadalu_operator/main.py:3373-3402 | every event follows from the one before: nothing is applied, waited for or healed twice |
| PoolDeletion.Operator.DisablePoolProvisioning | kadalu_operator/main.py:4546-4580 | returns only a record that is durably tombstoned, of the expected identity |
| PoolDeletion.Operator.SealLegacyRecord | kadalu_operator/main.py:4384-4494 | returns only a record confirmed as sealed, cleanup-only if cleanup may go on |
| PoolDeletion.Operator.HandleDeleted | kadalu_operator/main.py:4587-4925 | whatever fails and whatever is read, the log of effects stays disciplined; undisturbed, a drained pool is deleted, one in use or quarantined only tombstoned, a legacy one claimed or set aside, and the provisioner is back; no failed call is a success once the class is gone |
| PoolDeletion.DestructionIsEarned | kadalu_operator/main.py:4825-4909 | servers, Service and record go only behind the fence, after the class went with the record cleanup-only, after a later zero count, and after a still later read of the record with the same identity |
| PoolDeletion.WhatIsDeleted | kadalu_operator/main.py:4886-4909 | of a native pool the servers, then the Service, then the record, of an external one the record alone, and only if the record's owner is the one being deleted |
| PoolDeletion.ResumedOnlySealed | kadalu_operator/main.py:4912-4925 | outside the legacy path the provisioner is resumed only by the run that fenced it, and only after the record was found absent or tombstoned, or was tombstoned, behind that same fence |
| PoolDeletion.IdentityKeepsTombstoneIff | kadalu_operator/main.py:4497-4516 | an unchanged identity implies a tombstone iff the cleanup field is set or nobody lifted the other one |
| PoolDeletion.DestroyedTombstonedIff | kadalu_operator/main.py:4873-4909 | so at every destruction the record last read is cleanup-only iff it has the field or is still disabled |
| PoolDeletion.LiftedTombstoneIsDestroyed | kadalu_operator/main.py:4873-4909 | a concrete log in which servers go after the tombstone was lifted |
| Pager.Generator.Next | csi/volumeutils.py:4554-4576 | a page is the next `max_entries` volumes, or all that are left |
| Pager.Generator.Send | csi/volumeutils.py:4574-4583 | a page is handed out iff the token is zero, the page is the last, or the token is the expected one |
| Pager.Controller.ListVolumes | csi/controllerserver.py:1333-1396 | the answer to every token at every point of a listing, and without one |
| Pager.PagesAreTheList | csi/volumeutils.py:4554-4583 | the pages are the list in order, all full except possibly the last, none empty |
| Pager.TokenIsCheckedIff | csi/volumeutils.py:4577-4579 | before the last page a nonzero token is served iff it is the previous page's; the last page is served to any, and every page to zero |
| Pager.FollowTokens | csi/controllerserver.py:1360-1396 | following the returned tokens is never refused and yields exactly those pages |

## Left out

- Mounting, loop devices, mkfs, quota commands and process scanning: foreign calls. A quota is set or it is not.
- Block volumes: `create_block_volume` has the order of `create_subdir_volume`, with the file's size as its limit.
- External gluster quotas: the order is that of native quotas, with a factor on the limit.
- JSON, SQLite and fsync: a durable write is one step, and a file that does not decode is an entry that fails validation.
- SHA-256 and xxhash: a metadata hash is the metadata, a name hash is any function.
- Lock timeouts and gRPC deadlines: a process may give up at any point and releases its locks.
- The 10% reserve is compared in exact arithmetic, where the code rounds in floating point.
- HostingPool.Pool.DeleteVolume: does not cover the archive policy meeting a delete tombstone, because the policy is taken not to change between a crash and its retry.
- Operations.ExpandIsCrashIdempotent: starts without a create intent, because the walk of a retry fails once an expansion has outgrown one.
- Legacy archives and path containment: an archive has an id and the volume it came from.
- Controllers: two reads of one metadata file, by a search and by the evidence taken right after it, are one read.
- LateWrites.LateSizeKeepsInvIff: the reading and the rewriting of a metadata file are one step; without the lock the code could also write back a state it read before, such as one without a delete tombstone.
- Pager: two calls sharing one generator at a time are not modelled.
- Names: `=` inside an encoded component is rejected as a symbol; the code may decode it and then finds it not canonical.
- SinglePv: each claim is a state machine over its attribute writes, not a class, because other processes act between any two of them.
- TargetLocks: the same, for threads.
- PoolDeletion.Operator.HandleDeleted: starts from the record its caller decided on; the retirement of an orphaned StorageClass without any record is not modelled.
- Rollout: heal queries and rollout waits are one call that succeeds or raises.
- Templates, Kubernetes validation, StorageClass ownership, the watch loop, exporters, the command line: plumbing around single calls.
