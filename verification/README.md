# A verified model of the MNCS index runner

The runner indexes a corpus of text files: it discovers and reads files concurrently, sends 64-byte
windows and tokens through pure kernels, assembles per-file statistics and terms, extracts declarations,
headings, relations and pressure references, prints one canonical text per snapshot, and publishes
snapshots as numbered generations in a directory that publishers, readers, reclaimers and compactors share.

Two promises carry the design: scheduling never changes meaning, and readers never see torn state.
This project models the code behind both and proves them, together with the parts they rest on.

## What is modelled, file by file

* `StoreDisk`, `StoreMachine`: the store directory as a step system. Publishers, collectors (`reclaim` and
  `compact`), readers and the unlocked `repair` interleave; every file operation is one step; a process may
  die between any two steps and its lock dies with it. Each directory entry is a slot that remembers every
  value it had since the last directory barrier, so at durability level L2 and above an operating-system crash
  may leave any combination of them. `StoreDiskSafety`, `StoreInvariant` and `StoreSteps` hold the invariant
  and its preservation; `StoreTheorems` and `StoreLevels` state what follows for whole runs. `StoreScenarios` builds
  runs: publications, interrupted publications, openings. `StorePins` says exactly which pins can be overrun,
  `StoreHandles` who makes and releases pins, `StoreReclaim` and `StoreReclaimRuns` what a whole collection removes,
  and `StoreRemoval` that it stays removed.
* `StoreCheck`: `check()` as loops over one reading of the directory, with an exact contract, and what it says about
  reachable states. `StoreCheckRace`: the same when publications go on between its readings.
* `Retention`, `Compaction`, `StoreOps`: schedules, record-first deletion killed after any number of file
  operations, and a class whose methods are `reap_stale_pins`, `reclaim`, `compact` and its dry run.
  `StoreCollection` shows that a collector inside any run of the step system does those file operations.
* `PipelineMachine`, `PipelineInvariant`, `PipelineSafety`, `PipelineResults`: the concurrent build - producers,
  consumers, bounded queue, shared tables, stop flag, join - and its assembly. `Discover`: the concurrent reader
  stage against the sequential reference. `PipelineProgress` and `DiscoverProgress`: when these two can still end.
  `PipelineStranding`: which builds can fail to. `PipelineFacts` and `DiscoverFacts`: their queues, and what they raise.
* `Digest`, `Tokens`: window scans, boundary repair, chunked folds, the Merkle tree, token scanners, the link
  automaton over overlapping windows.
* `FileBuild`, `FileFacts`, `Incremental`, `Snapshots`, `SnapshotsV2`, `FinalTables`: per-file results, record tables of a
  corpus, the incremental snapshot, the finalized v1 and v2 snapshots with their texts, and what these hold.
* `Globalize`, `GlobalizeLoops`, `GlobalizeFacts`, `RichIncrement`, `IncrementalV2`: the rich tables, their merge, reuse
  across increments, and `incremental_snapshot_v2` composed from its parts.
* `Graph`, `Walk`, `WalkFacts`, `WalkDistance`, `Traversal`, `GraphQueries`: adjacency, the bounded breadth-first walk, both
  traversals, the invalidation set, and what they answer about the relation rows.
* `Canonical`, `LineInjectivity`, `CanonicalOrder`, `SnapshotText`, `Envelope`: record lines, exactly when texts determine
  records, sort keys, a reader of texts, and the stored payload.
* `FeedRecords`, `StoreFeed`, `StoreFeedCalls`, `FeedOrder`: the fixed-layout records, the derived relation index, and what
  any sequence of calls leaves in it.
* `Sorting`, `Collections`, `Options`: sorting by an order relation, sorted sets, counts and sums, optional values.

## Conventions

* SHA-256, the FNV byte step, and the extraction of one file are function parameters. Where equal digests must
  mean equal contents, that is a named hypothesis (`NoCollision`, `Collisionless`). The pairwise `combine` is a
  parameter too, except in `TreeIsZeroPadded`, which is about the arithmetic of `src/digest.mncs`.
* Bytes are characters. Texts are compared by code point, which is the byte order of their UTF-8 encodings.
* Kernel calls agree with their host mirrors, as in `should_visit_host`. The 64-bit wrap-around that matters,
  that of stored digests and of `combine`, is explicit.
* Clocks, random delays and thread timing appear as freely chosen steps.

## Where the code says something else than its comments, or less than one would expect

* A live pin does not protect its generation unconditionally: a collector lists the pins once, probes the processes in
  their names, and unlinks later (`runner/mncs_index/store.py:605-640`, `runner/mncs_index/store.py:1097`,
  `runner/mncs_index/store.py:1254`). `OpenHandleOverrun` is a run in which an open handle loses its file. The exact
  condition is `OverrunIffThreatened`: some collector is past its listing, did not see the pin, and has its generation
  as a victim - or, before its probe, would have it if of all listed pins, released or not, only those of its own and of
  the pinner's process were respected. A pin made at HEAD (`HeadPinIsSafe`), while no collector is past its listing
  (`PinBeforeListingIsSafe`), or after another pin of the same process on the same generation was listed
  (`EarlierPinProtects`) holds for the life of its process.
* Generation and pin files are named with at least six digits and listed with exactly six
  (`runner/mncs_index/store.py:183`, `runner/mncs_index/store.py:236`, `runner/mncs_index/store.py:421`). From
  generation 1000000 on `check` reports the healthy HEAD as dangling and as a gap (`SevenDigitHeadIsReportedLost`), and
  it is free of such false losses exactly while HEAD has at most six digits (`NoFalseLossIffSixDigits`). Such
  generations are never victims of any schedule (`SevenDigitsAreNeverVictims`), and pins on them are never reaped
  (`SevenDigitPinsStay`).
* `check` takes no lock: it lists the directory, then reads HEAD, then the journal. It reports a loss in a healthy store
  exactly when publications overtook it in between (`FalseLossIffOvertaken`); two are always enough, three after a
  machine crash (`ManyPublicationsOvertake`), and `TwoPublicationsOvertake` is such a run. It reports a listed file as
  unreadable exactly when a collector reclaimed it before it was opened (`UnreadableIffReclaimed`,
  `ReclaimIsReportedUnreadable`).
* Acknowledged commits survive a machine crash if and only if the level syncs directories (L2, L3); below, a crash may
  empty the store at any moment of any run (`UnsyncedStoreCanVanish`, `UnsyncedAckLost`).
* After a machine crash `check` can report two generations above HEAD, not one: a publisher dies after its HEAD rename,
  the next one after its generation rename, and the crash takes the HEAD rename back (`TwoAboveHead`). Without a crash
  HEAD + 1 is the most, and it occurs (`OneAboveHead`).
* An explicit `open` of a generation above HEAD loads a file that was never committed, and what is committed there later
  may differ (`UncommittedLoadsMayDiffer`); the theorems about committed content are therefore about generations at or
  below HEAD when they were loaded.
* The drain protocols say that the join always terminates (`runner/mncs_index/pipeline.py:249-251`,
  `runner/mncs_index/discover.py:208-210`). It does not: a consumer that sees an empty queue and only then reads the done
  flag leaves while an item is still queued (`PipelineProgress.StrandingIsReachable`,
  `DiscoverProgress.StrandingIsReachable`). A build can come to this exactly when it is not
  cancelled from the start and some file is not empty (`PlannedCanStrandIff`). From any reachable state the build can
  still end exactly when it is not stranded (`PipelineProgress.CanEndIffNotStranded`); discovery always while nothing
  stops feeder and readers, later exactly when a free reader is left for every sentinel queued or still to be put, and
  at least one for whatever is queued (`DiscoverProgress.CanEndIffNotStranded`, `JoinEndsIff`).
* A rich increment on a snapshot without rich tables, a v1 snapshot, equals the rebuild exactly when no unchanged file
  has rows; otherwise their rows are missing (`UpgradeIsRebuildIff`).
* The comment at `runner/mncs_index/model.py:152` says relation numbers follow a (rel, src, dst) sort; the code at
  `runner/mncs_index/extract.py:267-275` sorts (path, rel, dst). The model follows the code.
* Relation and heading lines are ambiguous for some paths with spaces, which discovery admits. Two different source
  paths can share a line exactly when the longer one is the shorter one followed by a space, a relation word, and then
  its end or a space (`RelationsCollideIff`); two heading paths exactly when level, number and digest stand there, or,
  with numbers of sixteen digits, the level alone (`HeadingsCollideIff`). The text determines the records of a set of
  files exactly when no two of their paths are of this kind (`TextDeterminesIff`). Headings here are any that the
  constructor accepts: their digest is not tied to their title. Document, term, symbol and pressure lines need no
  condition.
* Replaying commits one by one agrees with `rebuild` exactly when their generations are distinct and positive.

## Model

| member | source | states |
|---|---|---|
| StoreTheorems.HeadAdvancesByOne | runner/mncs_index/store.py:791-847 | In every run, every step leaves HEAD alone, or moves it from the declared base of one publisher to the next number, appending its snapshot to history, or is a machine crash that keeps history or takes back its last, unacknowledged commit. |
| StoreTheorems.HeadNamesAWholeHistory | runner/mncs_index/store.py:804-847 | In every reachable state HEAD is the last of 0, 1, 2, ..., each won by a different publish call; its file is present; every older generation is present with its committed content or journaled as reclaimed. |
| StoreTheorems.LogGrows | runner/mncs_index/store.py:804-847 | Over any stretch of a run without a machine crash in it, wherever it lies, committed history is only extended. |
| StoreTheorems.VerificationSucceeds | runner/mncs_index/store.py:849-862 | The L3 re-read of HEAD and its generation before acknowledgement can never fail. |
| StoreTheorems.HandlesHoldCommittedContent | runner/mncs_index/store.py:683-723 | A handle on a generation at or below HEAD holds the content committed for it through any stretch without a machine crash, whatever is published, reclaimed or repaired meanwhile. |
| StoreTheorems.LoadsAgree | runner/mncs_index/store.py:523-546 | Any two loads of one committed generation, at any two moments of a stretch without a machine crash, return the same snapshot. |
| StoreTheorems.OpenHeadIsCommitted | runner/mncs_index/store.py:683-723 | Opening HEAD binds committed content, and retries only when HEAD has already moved past the generation it pinned. |
| StoreTheorems.HeadPinProtects | runner/mncs_index/store.py:568-595 | While its process lives, a pin created while its generation was HEAD keeps that generation's file in place. |
| StoreTheorems.DeletionOverrunsOnlyLaterPins | runner/mncs_index/store.py:1088-1128 | Only a collector's unlink removes a generation; the generation is journaled and below HEAD, and every live pin on it was made after that run listed the pins and not at HEAD. |
| StoreTheorems.ListingHappened | runner/mncs_index/store.py:1248-1261 | A collector past its pin listing listed exactly the pins of one earlier state of the run. |
| StoreTheorems.Remover | runner/mncs_index/store.py:1344-1361 | The step that removes a generation is the unlink of a collector that has just synced its journal and names it as next victim. |
| StoreTheorems.CrashLeavesASoundStore | runner/mncs_index/store.py:462-481 | At L2 and above, after any crash outcome, the surviving HEAD names a surviving complete file, is at least every acknowledged generation, and every missing generation below it is in the surviving journal. |
| StoreTheorems.AcksStay | runner/mncs_index/store.py:843-847 | An acknowledged snapshot stays acknowledged with the same content through the rest of the run. |
| StoreTheorems.DurableAfterAck | runner/mncs_index/store.py:791-847 | Once publish has returned, HEAD stays at or above that generation, which keeps its content or is journaled below HEAD, across process deaths and, at L2 and above, machine crashes. |
| StorePins.OverrunIffThreatened | runner/mncs_index/store.py:1088-1128 | A live pin on a present generation can be overrun in some continuation through which its process lives if and only if a collector past its listing did not see it and has its generation as a victim or, before the probe, would have it when only the listed pins of its own and of the pinner's process count. |
| StorePins.HeadPinIsSafe | runner/mncs_index/store.py:683-723 | A pin made at HEAD is never threatened in this sense. |
| StorePins.PinBeforeListingIsSafe | runner/mncs_index/store.py:568-595 | A pin on a present generation while no collector is past its listing keeps the file for the life of its process. |
| StorePins.EarlierPinProtects | runner/mncs_index/store.py:605-640 | While a collector has listed but not probed, a pin of a process that already has a listed pin on the same generation keeps the file for the life of the process, even if the listed pin is released. |
| StorePins.OpenHandleOverrun | runner/mncs_index/store.py:1094-1128 | A run exists in which a collector deletes generation 0 under a handle that was opened after it listed the pins. |
| StoreHandles.PinsAreExact | runner/mncs_index/store.py:568-603 | At any moment of any run exactly those pins are there that a call has made, that no own step of that call has let go - by closing its handle or on finding its generation missing - and that no collector has reaped from a dead process. |
| StoreHandles.ClosedHandleLeavesNoPin | runner/mncs_index/store.py:345-353 | Closing a handle leaves exactly the pins of the other calls, and no later state has a pin of the closed one. |
| StoreHandles.OnlyAbandonedPinsStay | runner/mncs_index/store.py:659-681 | A pin whose call is over was left by a call that was given up, or whose process or machine died, while it had that pin. |
| StoreHandles.SevenDigitPinsStay | runner/mncs_index/store.py:236 | A collector never reaps a pin on a generation with seven digits, its process dead or alive. |
| StoreHandles.OpensWhatWasAsked | runner/mncs_index/store.py:683-723 | An opening call binds the generation it was given, and one on HEAD what is committed. |
| StoreHandles.HeadOpenOnlyRetries | runner/mncs_index/store.py:708-723 | A call on HEAD returns only by closing its handle: a missing file makes it start over. |
| StoreReclaim.CollectionIsExact | runner/mncs_index/store.py:1248-1361 | In any run, a collection that ends its deletions counted pins of its listing, among them all of processes alive at its probe, and removed and journaled exactly what its schedule takes when the generations of the counted pins are spared. |
| StoreReclaim.ClosedHandleIsCollected | runner/mncs_index/store.py:1088-1128 | A collection that lists the pins after a handle was closed and ends its deletions has removed every generation that its schedule takes when only the pins of the other calls count. |
| StoreReclaimRuns.Collect | runner/mncs_index/store.py:1214-1410 | From any reachable state with a free lock and a HEAD a whole collection runs through: the pins of dead processes go, exactly what the schedule takes around the other pins is removed and journaled, and compact leaves no staging of dead publishers, no HEAD staging, and a synced directory. |
| StoreReclaimRuns.CloseThenCollect | runner/mncs_index/store.py:597-603 | From any such state: close a handle and collect, and exactly what the schedule takes around the live pins of the other calls is removed. |
| StoreReclaimRuns.CollectorsSpareLiveStaging | runner/mncs_index/store.py:1278-1300 | No step of a collector takes away the staging file of a living publisher. |
| StoreRemoval.RemovedNeverReturns | runner/mncs_index/store.py:1344-1361 | What a collection found and had removed when it ended its deletions is absent in every later state, whatever is published, repaired or crashes. |
| StoreRemoval.GoneForGood | runner/mncs_index/store.py:457-460 | A generation below HEAD that no crash outcome has stays so in every later state. |
| StoreScenarios.Publish | runner/mncs_index/store.py:729-862 | From any reachable state with a free lock, a publication on HEAD runs through: HEAD, history, the acknowledgement and the one new file change, nothing else does. |
| StoreScenarios.PublishMany | runner/mncs_index/store.py:729-862 | HEAD can reach every number. |
| StoreScenarios.RepairAll | runner/mncs_index/store.py:1035-1058 | From any reachable state repair can remove all staging files, and nothing else changes. |
| StoreScenarios.UncommittedLoadsMayDiffer | runner/mncs_index/store.py:683-723 | A run exists in which two handles on one generation, one opened before its commit, hold different snapshots. |
| StoreLevels.AcksAreDurableIffDirectoriesAreSynced | runner/mncs_index/store.py:457-460 | Acknowledged commits survive every crash outcome of every run if and only if the level is at least L2. |
| StoreLevels.UnsyncedStoreCanVanish | runner/mncs_index/store.py:457-460 | Below L2, in every state of every run, a crash may leave an empty store. |
| StoreLevels.UnsyncedAckLost | runner/mncs_index/store.py:818-843 | Below L2 a run exists whose first acknowledged commit is gone after a crash. |
| StoreLevels.NothingTearsIffFilesAreSynced | runner/mncs_index/store.py:794-803 | A crash leaves under every name only what was written whole, in every state of every run, if and only if the level is at least L1. |
| StoreSteps.StepKeeps | runner/mncs_index/store.py:729-1139 | Every step of publishers, collectors, readers, repair, process death and machine crash keeps the store invariant. |
| StoreSteps.RunInv | runner/mncs_index/store.py:729-1139 | The invariant holds in every state of every run. |
| StoreSteps.PubRenamesHead | runner/mncs_index/store.py:832-839 | The HEAD rename keeps the on-disk history consistent and durable because the generation file was renamed and synced before it. |
| StoreSteps.GcPins | runner/mncs_index/store.py:1097-1128 | No collector step takes away a file protected by a live pin that was made at HEAD. |
| StoreSteps.RepairKeeps | runner/mncs_index/store.py:1035-1058 | Unlocked removal of any staging file at any moment keeps the invariant. |
| StoreDiskSafety.RenameHeadKeeps | runner/mncs_index/store.py:832-843 | Swapping HEAD to a present, synced, next-numbered generation keeps the disk invariant. |
| StoreDiskSafety.RenameJournalKeeps | runner/mncs_index/store.py:462-481 | Replacing the journal by one record more keeps the disk invariant, including what may survive a crash. |
| StoreDiskSafety.UnlinkKeeps | runner/mncs_index/store.py:1344-1361 | Unlinking a victim below HEAD whose record is durable in the journal keeps the disk invariant. |
| StoreDiskSafety.CrashKeeps | runner/mncs_index/store.py:457-481 | Every crash outcome of a disk that meets the invariant meets it again. |
| StoreCheck.Check | runner/mncs_index/store.py:864-1005 | check reports an issue exactly when the situation it names holds - said for every code but gaps and newer generations without reference to the model - lists exactly the valid generations, and reports nothing exactly for a healthy directory. |
| StoreCheck.HealthyIffNothingHolds | runner/mncs_index/store.py:864-1005 | No issue is reported if and only if HEAD names a listed file, every listed file is valid and none is above HEAD, everything missing below HEAD was reclaimed, and there is no staging and no corrupt manifest. |
| StoreCheck.ReachableStatesPassCheck | runner/mncs_index/store.py:864-1005 | On reachable states check reports only an empty store's missing HEAD, generations at most one above HEAD (two after a machine crash), leftover staging, or as lost a generation whose number has seven digits. |
| StoreCheck.NoFalseLossIffSixDigits | runner/mncs_index/store.py:914-990 | On reachable states check reports no generation as lost if and only if HEAD is absent or has at most six digits. |
| StoreCheck.SevenDigitHeadIsReportedLost | runner/mncs_index/store.py:420-421 | A run of ordinary publications reaches HEAD = 1000000, where check reports the present HEAD file as dangling and as a gap. |
| StoreCheck.OutsideRemovalIsReported | runner/mncs_index/store.py:436-455 | Removing a generation at or below HEAD from outside is newly reported as gap or dangling HEAD if and only if HEAD has at most six digits and the generation is HEAD or not in the journal. |
| StoreCheck.OneAboveHead | runner/mncs_index/store.py:804-835 | Without a crash a generation one above HEAD is reported in some run. |
| StoreCheck.TwoAboveHead | runner/mncs_index/store.py:804-843 | At L2 and above, after a crash, two generations above HEAD are reported in some run. |
| StoreCheckRace.FalseLossIffOvertaken | runner/mncs_index/store.py:896-983 | A check that lists the directory, reads a HEAD of at most six digits and reads the journal at three moments of a run, with no machine crash in between, reports a loss if and only if some generation was committed between the first two, was not on disk at the first, and is HEAD or not yet reclaimed at the third. |
| StoreCheckRace.ManyPublicationsOvertake | runner/mncs_index/store.py:896-983 | Two publications between listing and HEAD always overtake the listing in this sense; after a machine crash three do. |
| StoreCheckRace.TwoPublicationsOvertake | runner/mncs_index/store.py:896-983 | A run exists in which two publications make such a check report a loss while every committed file is present. |
| StoreCheckRace.UnreadableIffReclaimed | runner/mncs_index/store.py:919-960 | With every listed file opened at a moment of its own and no machine crash in between, check reports a file as unreadable if and only if it was there when listed and a collector reclaimed it before it was opened; it never reports a wrong hash or number. |
| StoreCheckRace.ReclaimIsReportedUnreadable | runner/mncs_index/store.py:938-952 | A run exists in which such a reclaim makes check report generation 0 as unreadable. |
| StoreCheckRace.JournalGrows | runner/mncs_index/store.py:462-481 | The journal only grows while the machine does not crash. |
| Compaction.ResumeConverges | runner/mncs_index/store.py:1344-1361 | A run killed after any number of file operations and then rerun ends with the files and journal of one uninterrupted run. |
| Compaction.CompactionConverges | runner/mncs_index/store.py:1271-1277 | So does any number of killed runs, killed anywhere, followed by a full one. |
| Compaction.FurtherRunRemovesNothing | runner/mncs_index/store.py:1271-1277 | After a full run the schedule has no victims left and another run changes nothing. |
| Compaction.KeepRecentExact | runner/mncs_index/store.py:1273-1275 | keep-recent:N removes a generation exactly when it has at most six digits, is unpinned, below HEAD, and at least N newer such ones remain below HEAD. |
| Compaction.KeepRecentKeepsNewest | runner/mncs_index/store.py:1273-1275 | The N newest generations below HEAD are never victims. |
| Compaction.CheckpointExact | runner/mncs_index/store.py:1276-1277 | checkpoint:N removes exactly the unpinned generations of at most six digits below HEAD that are not multiples of N. |
| Compaction.PruneExact | runner/mncs_index/store.py:1271-1277 | prune removes exactly the unpinned generations of at most six digits below HEAD. |
| Compaction.FullRunExact | runner/mncs_index/store.py:1344-1361 | A full run of any schedule removes and journals exactly what the schedule takes, said without reference to the run. |
| Compaction.PruneLeavesPinnedAndUnlisted | runner/mncs_index/store.py:1271-1277 | What a full prune run leaves below HEAD is exactly the pinned generations and those with seven digits. |
| Compaction.SevenDigitsAreNeverVictims | runner/mncs_index/store.py:1259-1262 | No schedule ever removes a generation with seven digits. |
| StoreCollection.CollectorIsKilledRun | runner/mncs_index/store.py:1344-1361 | In any run, from the probe of its pins to its return or death, a collector has left exactly the files and journal of the killed run of its schedule after as many operations; with nothing left to delete, those of the full run. |
| StoreOps.ProjectionIsExact | runner/mncs_index/store.py:1315-1343 | The dry run's subtractions give the counts, bytes and retained set that the real run measures afterwards, and reclaimed bytes are the sum of the removed sizes. |
| StoreOps.ChooseVictims | runner/mncs_index/store.py:1271-1277 | The loops that pick victims compute the schedule's victims. |
| StoreOps.Store.ReapStalePins | runner/mncs_index/store.py:659-681 | Exactly the pins of dead processes are removed and the set of live pinned generations is unchanged. |
| StoreOps.Store.DeleteVictims | runner/mncs_index/store.py:1344-1361 | After any number of operations the files are those of record-first deletion stopped there; undisturbed, all victims are removed. |
| StoreOps.Store.Reclaim | runner/mncs_index/store.py:1060-1139 | reclaim reports the deleted generations, the reaped pins and the pinned generations, and leaves the pins that remain and the full keep-recent run, or the killed run when its process dies on the way. |
| StoreOps.Store.Preview | runner/mncs_index/store.py:1315-1343 | The dry run changes nothing and returns the report of the schedule on this state, with what would be reaped. |
| StoreOps.Store.Compact | runner/mncs_index/store.py:1214-1410 | compact leaves the full run of its schedule without orphan staging and stale pins, and returns the report of the schedule on the state it found; or the killed run when its process dies. |
| StoreOps.DryRunForetells | runner/mncs_index/store.py:1315-1343 | Dry and real report agree on accounts, staging and pinned generations; what would be reaped is reaped, and reclaimed bytes are bytes before minus bytes after. |
| StoreOps.ReportNamesGenerations | runner/mncs_index/store.py:1315-1343 | The report names as pinned, removed, retained and newer exactly the generations these words stand for. |
| StoreOps.ReportCounts | runner/mncs_index/store.py:1304-1343 | Its counts, bytes and quotients are those of the listed generations before and after. |
| StoreOps.ReportNamesFiles | runner/mncs_index/store.py:1278-1302 | Its orphan, skipped and unattributable staging files and its reaped pins are exactly those of dead and living processes. |
| StoreOps.SumVictims | runner/mncs_index/store.py:1303-1316 | The summing loop gives the total size of the victims. |
| PipelineSafety.StepKeeps | runner/mncs_index/pipeline.py:203-301 | Every step of producers, consumers, main thread, canceller and memo users keeps: correct tables, exact task count, and every planned item settled, queued, in hand, still to do, or lost to a failure that will be raised. |
| PipelineSafety.ProducerLosesNothing | runner/mncs_index/pipeline.py:211-246 | A producer step never drops a planned leaf, token check or token digest unless it is failing. |
| PipelineSafety.ConsumerLosesNothing | runner/mncs_index/pipeline.py:248-270 | A consumer step never drops an item unless the build is already failing. |
| PipelineInvariant.ProducerKeepsWork | runner/mncs_index/pipeline.py:211-246 | Whatever a producer still had to do is afterwards settled, queued, still to do, or the producer has thrown. |
| PipelineInvariant.ProducerOwesSubmission | runner/mncs_index/pipeline.py:232-246 | A token newly marked as submitted is the producer's next item. |
| PipelineInvariant.ConsumerKeepsWork | runner/mncs_index/pipeline.py:252-270 | Work in hand is settled or kept unless the consumer failed or found the stop flag. |
| PipelineInvariant.ConsumerTrace | runner/mncs_index/pipeline.py:182-201 | The stop flag never appears without a recorded or imminent failure. |
| PipelineResults.ChunkServes | runner/mncs_index/pipeline.py:282-285 | Striding over the plans gives every plan to the producer that starts that many strides before it. |
| PipelineResults.RunInv | runner/mncs_index/pipeline.py:203-301 | The build invariant holds in every state of every run, for any queue size and thread counts. |
| PipelineResults.NormalReturnIsComplete | runner/mncs_index/pipeline.py:286-301 | Whenever the build reaches assembly, every planned window has its correct leaf and every planned token its correct verdict and digest. |
| PipelineResults.PlanAll | runner/mncs_index/pipeline.py:142-151 | Planning cuts every file into its windows and capped sorted tokens, in the given order. |
| PipelineResults.AssembleOne | runner/mncs_index/pipeline.py:339-395 | With complete tables one file assembles to the sequential result; a missing leaf is reported only when it is missing. |
| PipelineResults.Assemble | runner/mncs_index/pipeline.py:336-396 | With complete tables assembly cannot fail and returns the sequential results of all files. |
| PipelineResults.ConcurrentBuild | runner/mncs_index/pipeline.py:203-301 | A concurrent build that returns normally yields the document and term tables of its corpus; a failing assembly is unreachable. |
| PipelineResults.SchedulingNeverFails | runner/mncs_index/pipeline.py:182-201 | Without cancellation and faults no interleaving ever records a failure or raises. |
| PipelineProgress.CanEndIffNotStranded | runner/mncs_index/pipeline.py:248-296 | From any reachable state of any build the main thread can still get past the join if and only if it is not the case that the producers are done, an item is queued, and every consumer has left or found the queue empty. |
| PipelineProgress.StrandedForever | runner/mncs_index/pipeline.py:252-260 | Such a build stays so whatever anybody does. |
| PipelineProgress.NormalReturnIsReachable | runner/mncs_index/pipeline.py:203-301 | Every build that is not cancelled from the start has a run that reaches assembly. |
| PipelineProgress.StrandingIsReachable | runner/mncs_index/pipeline.py:252-260 | A planned build of one file with one producer and one consumer has a run, without failure or cancellation, that can never end. |
| PipelineStranding.CanStrandIffWork | runner/mncs_index/pipeline.py:203-296 | From an initial state a run can be stranded if and only if the build is not cancelled and some file has a window or a token whose verdict or digest the session does not know. |
| PipelineStranding.PlannedCanStrandIff | runner/mncs_index/pipeline.py:142-151 | A planned build can be stranded if and only if it is not cancelled from the start and some file is not empty. |
| PipelineFacts.QueueIsBounded | runner/mncs_index/pipeline.py:310-317 | In every state of every run the queue is within its capacity and every batch of tokens in it has one to eight. |
| PipelineFacts.DigestedOnce | runner/mncs_index/pipeline.py:232-246 | However many files and producers share a token, it is sent for digesting at most once in a build. |
| PipelineFacts.DigestsAreRemembered | runner/mncs_index/pipeline.py:319-334 | Every digest a build has recorded is in the session memo for later builds. |
| PipelineFacts.UncancelledRaisesFaults | runner/mncs_index/pipeline.py:182-201 | A build that is not cancelled records and raises only the failure of a thread. |
| PipelineFacts.FaultlessRaisesCancellation | runner/mncs_index/pipeline.py:195-201 | A build without faults records and raises only cancellation. |
| PipelineFacts.FirstFailureIsRaised | runner/mncs_index/pipeline.py:292-299 | Once a failure is recorded it is the one that is raised, by a main thread whose producers and consumers are all gone; the build never reaches assembly. |
| PipelineFacts.NothingStartsAfterCancel | runner/mncs_index/pipeline.py:195-201 | After a cancellation no consumer starts a kernel call and no producer passes the check before a put. |
| PipelineFacts.CancelledBuildFails | runner/mncs_index/pipeline.py:211-212 | A build with a file to process that is cancelled from the start never returns normally. |
| Discover.StepKeeps | runner/mncs_index/discover.py:193-283 | Every step of feeder, readers and canceller keeps: results as read, exact task count, and every admitted path read, queued, in hand, not yet fed, or lost to a failure that will be raised. |
| Discover.EverythingRead | runner/mncs_index/discover.py:284-290 | At normal return every admitted path has its own content in the results. |
| Discover.ConcurrentDiscovery | runner/mncs_index/discover.py:155-292 | When concurrent discovery returns normally, the sequential form succeeds with the same items in the same order: for every admitted path its own content, size and hint. |
| Discover.UnreadableIsReported | runner/mncs_index/discover.py:131-152 | If the sequential form would fail, no run of the concurrent form returns normally. |
| Discover.SequentialItems | runner/mncs_index/discover.py:143-152 | The sequential form gives for every path its own content, its size and its hint. |
| DiscoverProgress.CanEndIffNotStranded | runner/mncs_index/discover.py:206-283 | From any reachable state of any run the end can still be reached if and only if the join is over, nothing has stopped feeder or readers yet, or there is a free reader for every sentinel queued or still to be put and at least one for whatever is queued. |
| DiscoverProgress.StrandedForever | runner/mncs_index/discover.py:206-218 | Otherwise it stays so whatever anybody does. |
| DiscoverProgress.JoinEndsIff | runner/mncs_index/discover.py:206-283 | At the join of any run the end can still be reached if and only if there is a free reader for every queued sentinel and at least one for whatever is queued. |
| DiscoverProgress.FeedingCanEnd | runner/mncs_index/discover.py:249-283 | While the feeder is not done and nothing has stopped the readers, the end can be reached. |
| DiscoverProgress.NormalReturnIsReachable | runner/mncs_index/discover.py:155-292 | With readable files and no cancellation some run returns normally. |
| DiscoverProgress.StrandingIsReachable | runner/mncs_index/discover.py:206-218 | With one file and one reader a run exists, without failure or cancellation, whose join can never end. |
| DiscoverFacts.QueueIsBounded | runner/mncs_index/discover.py:189-262 | In every state of every run the queue is within its capacity. |
| DiscoverFacts.UncancelledRaisesReadFailure | runner/mncs_index/discover.py:193-243 | A discovery that is not cancelled records and raises only the failure of a read. |
| DiscoverFacts.FaultlessRaisesCancellation | runner/mncs_index/discover.py:199-204 | With readable files and no failing read it records and raises only cancellation. |
| DiscoverFacts.FirstFailureIsRaised | runner/mncs_index/discover.py:284-285 | Once a failure is recorded it is the one that is raised, and the discovery never returns normally. |
| DiscoverFacts.NothingStartsAfterCancel | runner/mncs_index/discover.py:199-204 | After a cancellation no reader starts a file or keeps one it has read, and the feeder passes no check. |
| Digest.LeafWindow | src/digest.mncs:45-60 | The kernel loop is one sequential scan of the live bytes from the given state and open flag. |
| Digest.OpenInMatters | src/digest.mncs:45-60 | Starting inside a word changes only the count of the first word of a window. |
| Digest.ScanStateIsFold | src/digest.mncs:36-38 | The state of a leaf is the plain fold of its bytes, whatever statistics travel beside it. |
| Digest.WindowsJoin | runner/mncs_index/pipeline.py:149 | The 64-byte windows of a file joined give the file. |
| Digest.WindowsAt | runner/mncs_index/pipeline.py:149 | Window i is bytes 64 i to 64 (i + 1), the last one what is left. |
| Digest.AssembleCounts | runner/mncs_index/pipeline.py:357-373 | Independent leaves with the boundary repair give the word and line counts of one sequential scan. |
| Digest.FoldBytes | runner/mncs_index/kernels.py:435-445 | Chunked folding equals one fold of the whole text. |
| Digest.OneLevel | runner/mncs_index/kernels.py:108-113 | One level combines adjacent pairs in order, an odd tail with 0. |
| Digest.TreeCombine | runner/mncs_index/kernels.py:95-114 | The level loop computes the level-by-level reduction, and the empty digest for no leaves. |
| Digest.LevelsAreBalanced | runner/mncs_index/kernels.py:95-114 | Level-by-level reduction equals the recursive balanced tree of least height. |
| Digest.OddTailsArePadding | runner/mncs_index/kernels.py:98-113 | If two zeros combine to zero, odd tails equal padding the leaves with zeros. |
| Digest.TreeIsZeroPadded | src/digest.mncs:65-68 | The actual 64-bit combine meets that condition, so the tree is the zero-padded one. |
| Digest.AssembleFile | runner/mncs_index/pipeline.py:340-374 | Assembly from leaves gives the digest of tree_digest_windows and the sequential statistics. |
| Tokens.RunsAreMaximal | runner/mncs_index/pipeline.py:154-179 | A text is a run of a file exactly when it is a maximal stretch of symbol characters in it. |
| Tokens.OrderedSymbolTokens | runner/mncs_index/extract.py:85-108 | The line scanner returns the runs of length at most 32 in order, overlong runs dropped whole. |
| Tokens.SplitTokens | runner/mncs_index/pipeline.py:154-179 | The file scanner returns the first 256 of the sorted distinct runs of length at most 32. |
| Tokens.FileTokensAreLineTokens | runner/mncs_index/extract.py:85-108 | Before the cap, scanning the whole file or each of its lines finds the same set of tokens. |
| Tokens.ContainsLink | src/extract.mncs:112-123 | The automaton accepts exactly when the live bytes contain a closing bracket followed by an opening parenthesis. |
| Tokens.WindowsDecideSeams | runner/mncs_index/extract.py:77-82 | All windows fit the kernel, and some window contains a seam if and only if the unbounded line does. |
| FileBuild.TermsAreCanonical | runner/mncs_index/pipeline.py:389-390 | The terms of a file are already sorted and within the cap. |
| FileFacts.StatsCount | src/digest.mncs:45-60 | A file has as many words as longest stretches without tab, line feed, carriage return and blank, and as many lines as line feeds. |
| FileFacts.TermsExact | runner/mncs_index/pipeline.py:154-179 | The terms of a file are exactly the longest stretches of underscores, digits and letters that have 1 to 32 of them, do not begin with a digit, and have fewer than 256 such stretches before them, those that begin with a digit counted; each with the fold of its bytes. |
| FileFacts.TermsInOrder | runner/mncs_index/pipeline.py:389-390 | Terms come in byte order, none twice. |
| FileBuild.BuildFile | runner/mncs_index/pipeline.py:319-396 | Scanning windows and tokens one after the other gives the result of a file. |
| FileBuild.TablesAreUnique | runner/mncs_index/indexer.py:35-54 | A corpus has exactly one document table and one term table. |
| FileBuild.ResultsToRecords | runner/mncs_index/indexer.py:35-54 | Whatever order results come in, the sorted records are the tables of the corpus. |
| FileBuild.BuildSnapshot | runner/mncs_index/indexer.py:175-194 | A sequential build yields the tables of the corpus for any order of its files. |
| Snapshots.FinishBuild | runner/mncs_index/indexer.py:175-194 | A concurrent build that returns normally, finalized, is a snapshot of its corpus with its text, hash and fingerprint. |
| Snapshots.FinishIncrement | runner/mncs_index/indexer.py:197-292 | For any hints and without digest collisions, the finalized v1 increment is the snapshot that a build of the current corpus has. |
| Snapshots.OneSnapshot | runner/mncs_index/indexer.py:57-78 | Any two builds of one corpus, with whatever queue, threads and schedules, have the same snapshot and canonical text. |
| FinalTables.FinalTells | runner/mncs_index/indexer.py:57-78 | The v1 snapshot holds the documents, then the terms of its corpus; its text is the marker, the id, one line for each of them in their order, and the end; hash and fingerprint are those of the returned text. |
| FinalTables.TablesInOrder | runner/mncs_index/model.py:204-207 | Documents come by kind, then path; terms by path, then their place in the file. |
| Snapshots.BuiltIsAccepted | runner/mncs_index/store.py:766-780 | Publish accepts what a build returned if and only if its number follows the declared base. |
| Incremental.Triage | runner/mncs_index/indexer.py:228-254 | For any hints every current path is queued, every path only in the old index is a removal, and both bookkeeping failures are unreachable. |
| Incremental.JudgeFresh | runner/mncs_index/indexer.py:259-268 | The verdict of a fresh document is the digest comparison and neither verdict failure is reachable. |
| Incremental.Settle | runner/mncs_index/indexer.py:259-279 | The second loop decides every current path and takes over stored records for exactly the unchanged ones. |
| Incremental.IncrementalSnapshot | runner/mncs_index/indexer.py:197-292 | For arbitrary hints: no failure, verdicts cover old and current paths with codes 0 to 3 by digest, and, without digest collisions, 0 and 3 say whether the content changed and the tables are those of the current corpus. |
| Globalize.BlockIgnoresOrder | runner/mncs_index/extract.py:246-248 | A file's contribution depends only on which rows it has, not on their order. |
| Globalize.GlobalizeIgnoresOrder | runner/mncs_index/extract.py:238-284 | The merged table depends only on the rows of each file, not on the order of rows or files. |
| Globalize.ReusedIsBlock | runner/mncs_index/extract.py:321-338 | The stored records of a path, read back as rows, are its block with position standing in for line number. |
| Globalize.RenumberedBlock | runner/mncs_index/extract.py:321-338 | Merging such rows again keeps them all, in the same order. |
| GlobalizeLoops.GlobalizeSymbols | runner/mncs_index/extract.py:244-252 | The dictionary and stable sort of symbols compute the specified merge. |
| GlobalizeLoops.GlobalizeRows | runner/mncs_index/extract.py:254-284 | The key sets of headings, relations and pressure rows, sorted globally, compute the specified merge. |
| GlobalizeFacts.SymbolsExact | runner/mncs_index/extract.py:244-252 | For every kind and name that a file declares there is exactly one record with its path, and every record shows the least row of its file with that kind and name, digest included; records are in path order, within a path in the order of those rows, and numbered from 0. |
| GlobalizeFacts.RowsExact | runner/mncs_index/extract.py:254-284 | In the other tables every row of a file, and nothing else, has exactly one record, in path order, within a path in tuple order, and numbered from 0. |
| GlobalizeFacts.BlockIsLeast | runner/mncs_index/extract.py:246-248 | A file contributes exactly the least row of every key. |
| GlobalizeFacts.FirstFieldDecides | runner/mncs_index/extract.py:264-266 | Tuples are ordered by the first field in which they differ. |
| RichIncrement.ReuseIsFresh | runner/mncs_index/indexer.py:318-320 | For unchanged content the reused rows merge to the same block as a fresh extraction. |
| RichIncrement.IncrementIsRebuild | runner/mncs_index/indexer.py:312-326 | If kept paths have equal content, the increment's tables are those of a clean rebuild. |
| RichIncrement.AnyChainIsRebuild | runner/mncs_index/indexer.py:295-337 | So are the tables after any chain of increments, when no two successive contents of a path collide. |
| RichIncrement.UpgradeIsRebuildIff | runner/mncs_index/indexer.py:312-326 | On a previous snapshot without rich tables an increment is the rebuild if and only if no kept path has rows. |
| IncrementalV2.FilerichFromRecords | runner/mncs_index/extract.py:321-338 | The loops over the previous tables give the stored rows of a path, table by table. |
| IncrementalV2.CollectRich | runner/mncs_index/indexer.py:312-322 | Rows are reused for exactly the paths with verdict 0 and extracted for the others. |
| IncrementalV2.IncrementalSnapshotV2 | runner/mncs_index/indexer.py:295-337 | For any hints and previous tables: no failure, verdicts over old and current paths by tree digest, and the rich tables are the increment under them; from the tables of the previous corpus and without digest collisions, documents, terms and rich tables are those of the current corpus. |
| SnapshotsV2.FinishBuildV2 | runner/mncs_index/indexer.py:138-162 | A concurrent build that returns normally, with rich extraction and finalized, is the v2 snapshot of its corpus with its text, hash and fingerprint. |
| SnapshotsV2.FinishIncrementV2 | runner/mncs_index/indexer.py:295-337 | From a v2 snapshot of the previous corpus, for any hints and without digest collisions, the finalized increment is the v2 snapshot of the current corpus; the verdict map is by digest in any case. |
| SnapshotsV2.OneSnapshotV2 | runner/mncs_index/indexer.py:80-126 | A corpus has one v2 snapshot and one v2 canonical text, so an increment prints what a rebuild prints. |
| FinalTables.TablesRead | runner/mncs_index/model.py:214-228 | Reading the rich records of a snapshot back by kind gives all four tables, field by field and in order. |
| FinalTables.FinalV2Tells | runner/mncs_index/indexer.py:80-126 | The v2 snapshot holds documents, terms and all four rich tables of its corpus; its text has exactly one line for each of their rows, with the fields the row has, in the order of the tables; hash and fingerprint are those of the returned text. |
| SnapshotsV2.BuiltIsAcceptedV2 | runner/mncs_index/store.py:760-780 | Publish accepts it if and only if its number follows the declared base. |
| Graph.BuildGraph | runner/mncs_index/graph.py:71-99 | The dictionaries of sorted neighbours are the two relations of the rows and their converses, whatever the row order. |
| Graph.SuccIsNeeds | runner/mncs_index/graph.py:146-151 | The neighbours of a node are exactly the nodes that some depends-on or defines row relates it to. |
| WalkFacts.TruncatedIffIncomplete | runner/mncs_index/graph.py:127-164 | The walk reports truncation if and only if some reachable node was left out. |
| WalkFacts.EmitsExactlyWithinBudget | runner/mncs_index/graph.py:102-164 | The walk emits distinct files within the depth limit, as many as the budget allows, and all of them if and only if the budget covers them. |
| WalkFacts.DepthCutIsExact | runner/mncs_index/graph.py:127-164 | For any limits, the admitted nodes are exactly those at distance at most the depth limit if and only if the node budget refuses nobody, as when it exceeds the number of near files; then truncation means that some node lies one step further. |
| WalkDistance.DepthIsDistance | runner/mncs_index/graph.py:127-164 | For any limits, every admitted node was admitted at exactly its shortest distance from the root. |
| Traversal.TraverseDependencies | runner/mncs_index/graph.py:127-164 | The frontier loop terminates and returns the specified walk from a known root, nothing for an unknown one. |
| Traversal.TraverseDependents | runner/mncs_index/graph.py:167-240 | The reverse loop with its seed phase and early returns computes the specified reverse walk. |
| Traversal.Duality | runner/mncs_index/graph.py:127-240 | For different known files and untruncated walks, b is a dependency of a if and only if a is a dependent of b. |
| Traversal.InvalidationSet | runner/mncs_index/graph.py:243-275 | The loop over changed paths computes the union of walks, each on the budget the earlier ones left. |
| Traversal.InvalidationIsSound | runner/mncs_index/graph.py:243-275 | Every changed path is present, at most max_nodes others are added in total, only true dependents, and all of them unless truncated. |
| GraphQueries.KnownIffMentioned | runner/mncs_index/graph.py:127-151 | A path is known as a file exactly when it is the source of a depends-on or defines row, a name as a symbol exactly when it is the target of one. |
| GraphQueries.DependenciesExact | runner/mncs_index/graph.py:127-164 | Only files that the root needs through a chain of depends-on and defines rows are answered, sorted and once, and all of them unless truncation is reported. |
| GraphQueries.DependentsExact | runner/mncs_index/graph.py:167-240 | The same for what needs the given file or, if no row has it as its source, the given symbol. |
| GraphQueries.DualityOfRows | runner/mncs_index/graph.py:127-240 | For different files and untruncated walks, b is a dependency of a if and only if a is a dependent of b and b is the source of some row. |
| GraphQueries.InvalidationWalks | runner/mncs_index/graph.py:261-275 | The invalidation set is the changed paths with one walk for each, in order, on the budget less the unchanged files that the earlier ones found; it is truncated exactly when some walk is. |
| GraphQueries.InvalidationExact | runner/mncs_index/graph.py:243-275 | It holds the changed paths and only true dependents of the rows, all of them unless truncation is reported. |
| GraphQueries.InvalidationMustBeComplete | runner/mncs_index/graph.py:243-275 | It is not truncated if everything that needs a changed path is within the depth limit and, for each, fewer files than the budget less all unchanged files that need any. |
| Canonical.UnhexHex16 | runner/mncs_index/model.py:44-49 | Reading back a printed digest gives it modulo 2^64. |
| SnapshotText.LineReads | runner/mncs_index/model.py:52-187 | A reader of blank-separated words gets every record back from its line, unless a path or target has a blank. |
| SnapshotText.TextReads | runner/mncs_index/model.py:239-274 | The lines of the text are the marker of the version, the snapshot id, the lines of the records in order, and the end. |
| Sorting.FirstCodePointDecides | runner/mncs_index/model.py:204-207 | Texts are ordered by the first code point in which they differ; a text that ends first comes first. |
| LineInjectivity.RelationsCollideIff | runner/mncs_index/model.py:144-168 | Two well-formed relations of two different source paths with one line exist if and only if the longer path is the shorter one, a space, a relation word, and then its end or a space. |
| LineInjectivity.HeadingsCollideIff | runner/mncs_index/model.py:114-141 | Two well-formed headings of two different paths, numbered below a limit, with one line exist if and only if the longer path continues the shorter one by level, number below the limit and digest, then its end or a space - or by a level alone, when the limit exceeds 10^15. |
| LineInjectivity.LineInjective | runner/mncs_index/model.py:52-187 | Different records print different lines, unless they are relations or headings of two such paths. |
| LineInjectivity.CanonicalInjective | runner/mncs_index/model.py:239-274 | Equal canonical texts have the same version, snapshot id and record sequence, when no two records in the same place have such paths. |
| LineInjectivity.TextDeterminesIff | runner/mncs_index/model.py:239-274 | The text determines the records of a set of paths if and only if no two of the paths are such. |
| CanonicalOrder.AllIsV1ThenRich | runner/mncs_index/model.py:224-228 | Sorting everything puts the v1 records first, in their own order, then the rich ones. |
| CanonicalOrder.V1IsABlockOfV2 | runner/mncs_index/model.py:258-274 | The v1 record section is one contiguous block of the v2 text, right after the header. |
| CanonicalOrder.TextForgetsProductionOrder | runner/mncs_index/model.py:204-228 | The canonical text does not depend on the order in which records with distinct keys were produced. |
| Envelope.PublishedLoads | runner/mncs_index/store.py:502-546 | Everything publish accepts, load accepts, with the same id, generation, hash, fingerprint, established map and document hints; the records are identical if and only if every digest fits 64 bits. |
| Envelope.HintsSurvive | runner/mncs_index/store.py:782-784 | The hint map rebuilt by load is that of the snapshot's documents, with the published hint or 0. |
| Envelope.StoresIff | runner/mncs_index/store.py:756-780 | Publish stores a payload if and only if the text is that of the records, the hash that of the text, and the number follows the declared base. |
| Envelope.LoadsIff | runner/mncs_index/store.py:483-546 | Load returns a payload if and only if its heading levels, its number and its hash are right, and then with its own fields. |
| Envelope.LoadReturnsOnlyWhatWasHashed | runner/mncs_index/store.py:502-521 | If load returns a payload stored under a snapshot's hash then, unless the texts collide or two records in one place have confusable paths, it has that snapshot's version, id and sorted records. |
| FeedRecords.RelationDecodes | runner/mncs_index/store_feed.py:30-50 | Whatever bytes decode to a relation are its encoding, so decoding is injective. |
| FeedRecords.RelationEncodes | runner/mncs_index/store_feed.py:30-50 | Decoding the encoding of a relation gives it back. |
| FeedRecords.ProvenanceDecodes | runner/mncs_index/store_feed.py:67-80 | Whatever bytes decode to a provenance record are its encoding. |
| FeedRecords.ProvenanceEncodes | runner/mncs_index/store_feed.py:67-80 | Decoding the encoding of a provenance record gives it back. |
| FeedRecords.FeedDecodes | runner/mncs_index/store_feed.py:92-104 | Whatever bytes decode to a feed header are its encoding. |
| FeedRecords.FeedEncodes | runner/mncs_index/store_feed.py:92-104 | Decoding the encoding of a feed header gives it back. |
| StoreFeed.DerivedStoreIndex.Accept | runner/mncs_index/store_feed.py:178-187 | A valid, non-receding commit is merged by identity and never lowers the store generation; anything else changes nothing. |
| StoreFeed.TakenIff | runner/mncs_index/store_feed.py:113-119 | A commit is taken exactly when both counts are right, its relations carry its generation, and that is no older - to apply, newer - than the last one taken. |
| StoreFeed.DerivedStoreIndex.Apply | runner/mncs_index/store_feed.py:189-193 | An advancing valid commit is taken, never lowering the store generation; a rejected one changes nothing. |
| StoreFeed.DerivedStoreIndex.ObserveStoreGeneration | runner/mncs_index/store_feed.py:195-199 | The store generation only moves forward; a rejected observation changes nothing. |
| StoreFeed.DerivedStoreIndex.FreshnessNow | runner/mncs_index/store_feed.py:155-160 | The index is complete or stale; a future generation is never reported. |
| StoreFeedCalls.GenerationsAfter | runner/mncs_index/store_feed.py:178-199 | After any observations and commits in any order, rejected ones among them, the store generation is the highest that succeeded, and the index is through the last commit taken, which is the newest. |
| StoreFeedCalls.SucceedsIff | runner/mncs_index/store_feed.py:178-199 | An observation succeeds exactly when nothing newer has succeeded, a commit exactly when it is valid and no newer - to apply, no equally new - commit was taken. |
| StoreFeedCalls.CompleteIff | runner/mncs_index/store_feed.py:155-160 | The index is complete if and only if no successful call named a generation newer than every commit taken. |
| StoreFeedCalls.RelationsAfter | runner/mncs_index/store_feed.py:178-187 | After any calls an identity is present exactly when a commit taken since the last replacement mentions it, with the last value of the last one that does. |
| StoreFeed.DerivedStoreIndex.SortedRelations | runner/mncs_index/store_feed.py:207-209 | All stored relations, each once, in identity order. |
| StoreFeed.DerivedStoreIndex.QueryRelations | runner/mncs_index/store_feed.py:211-239 | The hits are the stored relations that match every given clause, each once and in identity order, with the hash of their bytes. |
| StoreFeed.AnswerIsUnique | runner/mncs_index/store_feed.py:211-239 | A query has exactly one answer, whatever order the dictionary is visited in. |
| StoreFeed.RawTextJoins | runner/mncs_index/store_feed.py:228-230 | The hashed bytes of the hits are their record bytes one after the other. |
| FeedOrder.IdentityOrderIsByteOrder | runner/mncs_index/store_feed.py:53-54 | Decoded relations are in identity order exactly when the kind, source, target and ordinal bytes of their records are in byte order. |
| StoreFeed.Rebuild | runner/mncs_index/store_feed.py:171-176 | Rebuilding accepts commits in generation order from a fresh index and fails exactly when one of them is rejected. |
| StoreFeed.ApplyAllExact | runner/mncs_index/store_feed.py:189-193 | Applying a sequence to a fresh index succeeds exactly when it is valid, positive and strictly increasing, and then equals accepting it. |
| StoreFeed.RebuildIsReplay | runner/mncs_index/store_feed.py:171-193 | For valid commits with distinct positive generations, rebuilding any permutation equals applying them in generation order. |
| StoreFeed.ReplayAgreesIff | runner/mncs_index/store_feed.py:171-193 | Replay agrees with rebuild exactly when generations are distinct and positive. |
| StoreFeed.NewestWins | runner/mncs_index/store_feed.py:171-187 | After a rebuild from commits in any order an identity is present if and only if some commit mentions it, and holds the last value that the deciding commit gives it: the newest that mentions it, the last given among equally new ones. |

## Left out

- StoreCheck.Check: takes what was read as given; what readings at different moments of a run can give is StoreCheckRace, without staging files and the manifest.
- StoreOps.Store.Compact: durations, rounding and the manifest text are not modelled; the barrier between two staging removals is left out, which only allows more crash outcomes.
- Discover.ConcurrentDiscovery: files are assumed not to change while one run reads them; the directory walk, path normalisation, admission by extension and the snapshot identity are left out, the admitted paths being given.
- Incremental.IncrementalSnapshot: the queued files are built by the sequential reference; that the concurrent build gives the same records is PipelineResults.ConcurrentBuild. The finalized forms are Snapshots.FinishIncrement and SnapshotsV2.FinishIncrementV2.
- RichIncrement.IncrementIsRebuild: previous tables must be a full extraction of the previous corpus; what an upgrade of a v1 snapshot gives is UpgradeIsRebuildIff.
- JSON text, UTF-8 encoding, regular expressions, CRC32, SHA-256 and FNV internals; `mncs.std.fnv1a.v1` is not part of this model.
- StoreReclaim.CollectionIsExact: which pins of dead processes counted is left open, since a reused process id may keep any of them.
- FinalTables.FinalV2Tells: that extraction makes only rows of the known kinds, relation words and levels is a named hypothesis (`Typed`), and that document kinds rank below terms another (`KindsBelowTerms`).
- Real file locking, fsync and process probing: a mutex released on death, barrier steps and a set of live processes. A reused process id appears only as a dead pin that may look alive.
- Tampering with store files other than the removal of one generation; stores whose writers use different levels.
- The line-level extractors for declarations, headings, links, RFC and pressure references: the extraction of one file is a function of its table, path and content.
- Lineage and query projections, the watch loop, the bridge, the command line and the evidence scripts: they add no protocol or algorithm beyond those above.
