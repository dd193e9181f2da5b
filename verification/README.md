# MongrelDB cluster protocols, modelled and proved in Dafny

This project models the distributed protocols of MongrelDB's cluster crate and the outcome
classification of its client, and proves what they promise over every input, every run, every
interleaving and every crash schedule the model admits. Crashes are nondeterministic returns between
two effects, concurrent writers are nondeterministic writes between them, and whole-protocol claims
are postconditions of methods that contain that nondeterminism, or lemmas over arbitrary runs of a
state machine. A process declared not to die, or a destination declared not to fail, finishes what
it was asked. Where the code does less than it documents, the code is modelled as it is, a lemma
gives the input that shows it, and another gives the exact condition under which the promise holds.

## Online schema change

`DdlTypes`, `DdlStoreSpec` and `DdlJobStore` are the replicated job store: twelve commands over
tables, jobs, index records, reader pins and a refusal journal, once as functions on values and once
as handlers updating an object in place, proved equal. `DdlInvariant` and `DdlHistory` prove the
store invariant over all runs of well-formed commands, from which no handler can panic. `DdlEffects`
and `DdlTheorems` prove that a pinned reader's planner view is stable across publishes, drops,
reclaims and re-adds, that publication evidence is permanent, and that a schema version names one
document. `DdlCommands` says of each command when it is accepted and what it then leaves, that it
reaches no other job, name, table or reader, and that a version read with a job detects exactly the
changes made since. A command is well-formed when a submitted job's kind names its definition and starts
without progress or pin, and when a removal names the record of its own job. The driver builds its
commands so; the store checks neither, and `DdlAnomalies` shows what then happens.

`Keyspace`, `IndexBuild` and `TabletBuild` are the online index build: backfill from a pinned
snapshot, repeated delta sweeps and validation, while writes commit between any two steps and dual
maintenance stores raw rows in the installed generation. The one assumption on writers is that a
commit's timestamp lies above what the driver has already read past; writers may otherwise commit in
any order. `IndexUpkeep` states when a published index stays exact, and what validation cannot see.
`DriverEffects` and `DdlDriver` are the driver over the store: it terminates from every reachable
store, never rebuilds a tablet recorded as caught up, publishes every job nothing stands in the way
of, and a cancelled job unwinds completely.
`PublishedIndex` joins the two sides: the evidence the store keeps of a published index, read as
reports on tablets, makes the index exact.

Findings: a write that lands after validation's last delta read fails a correct build, unless the
checksum misses it (`PublishedIndex.LateWriteReport`); maintenance stores the raw row, so an index
with any other projection drifts after publication (`IndexUpkeep.WriteTracksIff`); catch-up's loop
ends because the racing writes are finite, not because the watermark advances; a pin above the
store's version does not hold its view (`DdlTheorems.PinAboveVersionSeesChange`); replaying a
submission is refused unless its update time already was the commit time
(`DdlAnomalies.SubmitReplayIff`); and the checksum input runs keys and entries together
(`IndexUpkeep.ChecksumCollides`).

## Distributed serializable snapshot isolation

`DistSsi` is the certifier with its key vectors, `SsiSerial` a system of interactive transactions
around it. Any run whose snapshots are at most `window` commits old is equivalent to running the
certified transactions alone in commit order. The bound is tight: `StaleWindow` gives, for every
window, a run with a snapshot one commit older that no order of its transactions explains.

## Tablet merge and gateway binding

`Partition`, `TabletMeta`, `MergePlan`, `MergeLayout`, `MergeData`, `MergeState` and `MergeExecutor`
are the merge: plan, eight durable phases, publication and removal. Writes land on the sources at
any time, before, inside and between catch-up attempts. Over every schedule of writes, requests and
crashes each key has one routable owner, generations only rise, and a published replacement holds
exactly the rows last read, always if no crash came between and otherwise under a condition stated
on the attempts before. `Gateway` binds fragments, and in every layout of a merge a table-scoped
fragment reaches every key through exactly one target.

Findings: a crashed catch-up leaves rows that a later diff no longer mentions, so the replacement is
right if and only if every key it wrote and whose row went back to its snapshot row already held
that row (`MergeState.ReplayedIff`); sources quiet from the first delta read on meet this, quiet
from the last on they may not (`MergeState.CopiedThenDeletedRowSurvives`). A resumed executor has no
retention guard. After a process crash no request is left to protect, but a merge parked with
`SourceRetained` invites a resume in the living process, and there the pinned requests no longer
keep the sources (`MergeExecution.MergeExecutor.ResumeForgetsRequests`). The default publication
writes three descriptors one after another and passes through layouts in which merged keys have two
owners (`MergeLayout.HalfPublishedOwnersIff`), so the model publishes them as the one command the
design asks for. Range validation accepts two forms that hold no key
(`Partition.ValidIsInhabitedIff`).

## Bootstrap, backup and client outcomes

`Bootstrap` interleaves the file operations of any number of init, join, drain, remove and
first-boot attempts with crashes and with operators clearing the lock of a dead process.
`ClusterBackup` is the publish-last backup over a destination in which any write may be torn; what
it publishes is what the storage handed over.
`ClientOutcome` is the decoding of transaction responses: a commit is reported exactly when the body
proves it.

Findings: a manifest too large to read back is published before it is refused
(`ClusterBackup.BackupDestination.PublishManifest`); a proven commit with a malformed op index is
reported as unknown (`ClientOutcome.UnreadableOpIndexHidesCommit`).

## Model

| member | source | states |
|---|---|---|
| `DistSsi.TabletKeySet.Insert` | crates/mongreldb-cluster/src/dist_ssi.rs:35-40 | a key is added once: the vector stays free of duplicates and its members are the old ones plus the key |
| `DistSsi.TabletKeySet.Intersects` | crates/mongreldb-cluster/src/dist_ssi.rs:43-45 | true exactly when the two vectors, read as sets, share a key |
| `DistSsi.TouchAddsOneLocation` | crates/mongreldb-cluster/src/dist_ssi.rs:59-66 | recording an access adds exactly that (tablet, key) location and keeps every per-tablet vector duplicate-free |
| `DistSsi.MapsIntersect` | crates/mongreldb-cluster/src/dist_ssi.rs:69-90 | the nested per-tablet loops find a conflict exactly when the two sets of (tablet, key) locations meet |
| `DistSsi.DistSsiCertifier.Track` | crates/mongreldb-cluster/src/dist_ssi.rs:127-129 | the transaction's access set is replaced, nothing else changes |
| `DistSsi.DistSsiCertifier.ObserveRead` | crates/mongreldb-cluster/src/dist_ssi.rs:132-134 | one read is added to the in-flight set, created if absent |
| `DistSsi.DistSsiCertifier.ObserveWrite` | crates/mongreldb-cluster/src/dist_ssi.rs:137-144 | one write is added to the in-flight set, created if absent |
| `DistSsi.DistSsiCertifier.Certify` | crates/mongreldb-cluster/src/dist_ssi.rs:148-186 | the loop over the recent commits agrees with the certification rule on outcome and on the new certifier |
| `DistSsi.DistSsiCertifier.Abort` | crates/mongreldb-cluster/src/dist_ssi.rs:189-191 | the in-flight set is dropped, nothing else changes |
| `DistSsi.CertifyVerdict` | crates/mongreldb-cluster/src/dist_ssi.rs:148-186 | a tracked transaction is refused if and only if some commit of the window wrote what it read or wrote |
| `DistSsi.RefusedThenAskedAgain` | crates/mongreldb-cluster/src/dist_ssi.rs:149-152 | asking again about a refused transaction answers commit, because it is no longer tracked |
| `SsiSerial.RunKeeps` | crates/mongreldb-cluster/src/dist_ssi.rs:110-191 | every run of begins, operations, prepares, commits and aborts keeps the certifier's view equal to what the transactions did |
| `SsiSerial.WindowInvariant` | crates/mongreldb-cluster/src/dist_ssi.rs:148-186 | over every run, two commits at most `window` apart have disjoint writes and the earlier one's writes miss the later one's reads |
| `SsiSerial.UntouchedBetween` | crates/mongreldb-cluster/src/dist_ssi.rs:148-186 | a location no commit in between writes has the same value at both ends |
| `SsiSerial.ReadsOwnWrites` | crates/mongreldb-cluster/src/dist_ssi.rs:132-144 | a transaction reads what it wrote last and otherwise its snapshot, and its writes stay its own until it commits |
| `SsiSerial.EntryIsSerial` | crates/mongreldb-cluster/src/dist_ssi.rs:148-186 | a committed transaction, run alone on the state just before its commit, reads the same values and leaves the next state |
| `SsiSerial.SerialEquivalence` | crates/mongreldb-cluster/src/dist_ssi.rs:148-186 | in every run whose snapshots are at most `window` commits old, running the certified transactions one by one in commit order gives every read, every write and the final state of the concurrent run |
| `StaleWindow.StaleSnapshotLosesUpdate` | crates/mongreldb-cluster/src/dist_ssi.rs:172-179 | for every window: a run with a snapshot one commit older than the window reaches in which a certified update is lost, and no order of its transactions, run alone one after the other, explains what they saw and left |
| `DdlJobStores.DdlJobStore.Apply` | crates/mongreldb-cluster/src/ddl.rs:842-861 | every command that does not hit a panic applies in place as the specification says, whether or not it is well-formed; the version rises by one, a refusal leaves tables, jobs, records, pins and the next id as they were, and a well-formed command keeps the invariant |
| `DdlJobStores.DdlJobStore.JournalRefusal` | crates/mongreldb-cluster/src/ddl.rs:842-861 | the journal keeps the newest 256 refusals |
| `DdlJobStores.DdlJobStore.DispatchCommand` | crates/mongreldb-cluster/src/ddl.rs:863-927 | each of the twelve commands reaches its handler and leaves what that handler's specification gives |
| `DdlJobStores.DdlJobStore.ApplyRegisterTable` | crates/mongreldb-cluster/src/ddl.rs:929-981 | reserved ids, stale versions and conflicting replays are refused; a newer schema replaces the anchor |
| `DdlJobStores.DdlJobStore.ApplySubmitJob` | crates/mongreldb-cluster/src/ddl.rs:983-1123 | the submission checks in order, the index record of an addition, and the next job id |
| `DdlJobStores.DdlJobStore.ApplyAdvancePhase` | crates/mongreldb-cluster/src/ddl.rs:1125-1214 | only a running job moves, along the phase graph, never to Public this way; its index record follows |
| `DdlJobStores.DdlJobStore.MirrorPhase` | crates/mongreldb-cluster/src/ddl.rs:1203-1212 | the index record follows the phase and is stamped when it starts dropping |
| `DdlJobStores.DdlJobStore.ApplyUpdateTabletProgress` | crates/mongreldb-cluster/src/ddl.rs:1216-1272 | progress is recorded while backfilling and never moves back; a dominated replay later is a no-op |
| `DdlJobStores.DdlJobStore.ApplyForgetTabletProgress` | crates/mongreldb-cluster/src/ddl.rs:1274-1302 | a tablet's progress is dropped only while backfilling or validating |
| `DdlJobStores.DdlJobStore.ApplyReportTabletValidation` | crates/mongreldb-cluster/src/ddl.rs:1304-1349 | a report is recorded for a caught-up tablet and validates it if it passed |
| `DdlJobStores.DdlJobStore.ApplyPublishJob` | crates/mongreldb-cluster/src/ddl.rs:1351-1451 | one command flips the element Public when every tablet is proven and the schema has not moved, and an alteration's table then has the target document at the next version |
| `DdlJobStores.DdlJobStore.ApplySetJobState` | crates/mongreldb-cluster/src/ddl.rs:1453-1500 | job states move along the job graph only, and terminal states never |
| `DdlJobStores.DdlJobStore.ApplyRemoveIndexRecord` | crates/mongreldb-cluster/src/ddl.rs:1502-1543 | a failed or unwinding job's unpublished record is removed |
| `DdlJobStores.DdlJobStore.ApplyReclaimIndex` | crates/mongreldb-cluster/src/ddl.rs:1545-1576 | a dropping record is reclaimed only when no pinned reader is older than its retirement |
| `DdlJobStores.DdlJobStore.ApplyPinReader` | crates/mongreldb-cluster/src/ddl.rs:1578-1600 | a reader's pin never moves backwards |
| `DdlJobStores.DdlJobStore.OldestReaderVersion` | crates/mongreldb-cluster/src/ddl.rs:1620-1622 | the loop finds the smallest pinned version |
| `DdlInvariant.DispatchKeeps` | crates/mongreldb-cluster/src/ddl.rs:863-927 | no handler's expect or unreachable can fire on a well-formed command, and the store invariant survives all twelve |
| `DdlHistory.RunKeeps` | crates/mongreldb-cluster/src/ddl.rs:842-927 | over every run of well-formed commands: one unfinished job per table, records mirroring their job's phase, publication and retirement stamps exactly when the phase says so |
| `DdlHistory.EmptyReachable` | crates/mongreldb-cluster/src/ddl.rs:751-764 | the empty store satisfies the invariant, so it starts a run |
| `DdlHistory.ReachableInv` | crates/mongreldb-cluster/src/ddl.rs:842-927 | every store reachable from the empty one satisfies the invariant |
| `DdlHistory.JournalIsRecentRefusals` | crates/mongreldb-cluster/src/ddl.rs:842-861 | at every point of any sequence of applied commands, from any store with an empty journal, the version counts them and the journal is their last 256 refusals, in order |
| `DdlEffects.ApplyKeyStep` | crates/mongreldb-cluster/src/ddl.rs:983-1576 | in one command an index key is created hidden, moves with its job, is published once, is retired once, or disappears under the conditions for it |
| `DdlEffects.ApplyJobStep` | crates/mongreldb-cluster/src/ddl.rs:983-1543 | in one command a job keeps its identity, moves along both graphs only, never leaves a terminal state and never changes once published |
| `DdlEffects.ApplyAnchorStep` | crates/mongreldb-cluster/src/ddl.rs:929-981 | in one command a table's schema version never falls, and an unchanged version keeps its document |
| `DdlTheorems.PinnedViewStable` | crates/mongreldb-cluster/src/ddl.rs:1628-1646 | while a reader's pin at or below the store's version is held, the names and definitions visible at it are the same in every later state, across publishes, drops, reclaims and re-adds of the same name |
| `DdlTheorems.PinAboveVersionSeesChange` | crates/mongreldb-cluster/src/ddl.rs:1578-1646 | a pin above the store's version is accepted, and the next publication of an added index changes the view at it |
| `DdlTheorems.PublishFlipsOnce` | crates/mongreldb-cluster/src/ddl.rs:1351-1451 | the published name is visible, with the submitted definition, from the publishing version on and at no earlier one |
| `DdlTheorems.UnwindKeepsViewIff` | crates/mongreldb-cluster/src/ddl.rs:1502-1543 | an unwind leaves the view at a version unchanged if and only if the record it removes is not a dropping one still visible there |
| `DdlTheorems.PublishedEvidence` | crates/mongreldb-cluster/src/ddl.rs:1351-1451 | every Public or Dropping record names a Succeeded job whose tablet map is non-empty and all Validated with passing reports |
| `DdlTheorems.EvidenceIsPermanent` | crates/mongreldb-cluster/src/ddl.rs:1216-1451 | no later command alters the evidence of a published job |
| `DdlTheorems.PublishReplay` | crates/mongreldb-cluster/src/ddl.rs:1351-1372 | replaying a publication at any later time changes no job, index or table |
| `DdlTheorems.PublicStaysOrDrops` | crates/mongreldb-cluster/src/ddl.rs:1125-1214 | a Public record stays Public or becomes Dropping |
| `DdlTheorems.SchemaVersionNamesOneSchema` | crates/mongreldb-cluster/src/ddl.rs:929-981 | whatever commands are applied a table's schema version never falls, and one version names one document |
| `DdlTheorems.PublishedUnderSubmittedSchema` | crates/mongreldb-cluster/src/ddl.rs:1390-1442 | a job is published only under the schema document it was submitted under |
| `DdlTheorems.PinsOnlyRise` | crates/mongreldb-cluster/src/ddl.rs:1578-1600 | a reader's pin that is not released never moves back |
| `DdlTheorems.ProgressNeverRegresses` | crates/mongreldb-cluster/src/ddl.rs:1216-1349 | whatever command is applied, a tablet's recorded stage never falls, and its scan count never falls within a stage, unless that tablet is forgotten |
| `DdlAnomalies.SubmitReplayIff` | crates/mongreldb-cluster/src/ddl.rs:998-1006 | replaying a submission is accepted if and only if the submitted update time already was its commit time |
| `DdlAnomalies.ForeignUnwindBreaksPinnedView` | crates/mongreldb-cluster/src/ddl.rs:1502-1543 | a store reached from the empty one by accepted commands in which removing a record under another, cancelled job is accepted and changes a pinned reader's view |
| `DdlAnomalies.MismatchedSubmissionPanics` | crates/mongreldb-cluster/src/ddl.rs:1443-1446 | every accepted submission whose definition is a drop and whose kind is not one, an addition or an alteration, is taken to a panic by the ordinary driving commands |
| `DdlTypes.JobStateInto` | crates/mongreldb-cluster/src/meta.rs:767-791 | the job graph read from its targets: which states lead into which, and that exactly the terminal ones lead nowhere |
| `DdlTypes.PhasesInOrder` | crates/mongreldb-cluster/src/ddl.rs:300-311 | a phase change is one place forward in the order of the six phases, and an element is hidden before Public |
| `DdlCommands.ApplyTouchesItsTarget` | crates/mongreldb-cluster/src/ddl.rs:842-927 | no command reaches past the one job, the one index name, the one table and the one reader it is about |
| `DdlCommands.ApplyStamps` | crates/mongreldb-cluster/src/ddl.rs:842-927 | every job, record and table a command changes carries the version of that command, and no stamp lies past the store's version |
| `DdlCommands.ReachableStamps` | crates/mongreldb-cluster/src/ddl.rs:842-927 | in every store reachable from the empty one no job, record or table is stamped past the store's version, which is what the stale-write check rests on |
| `DdlCommands.StaleIff` | crates/mongreldb-cluster/src/ddl.rs:1125-1151 | over any sequence of applied commands a phase or state change that names the version its job was read at is refused as stale if and only if the job has changed since |
| `DdlCommands.RefusalsAreTrue` | crates/mongreldb-cluster/src/ddl.rs:863-1600 | the particulars a refusal carries are those of the store: the versions, the phases, the pending tablets, the oldest reader |
| `DdlCommands.RegisterIff` | crates/mongreldb-cluster/src/ddl.rs:929-981 | a registration is accepted if and only if it is newer than what is stored, or the same again; the document is then in force |
| `DdlCommands.SubmitIff` | crates/mongreldb-cluster/src/ddl.rs:983-1123 | a new job is accepted if and only if its table, database and schema version are as stored, it starts queued in its first phase, no other job of the table is unfinished, and its name is free or Public as its kind needs; the job and a hidden record are then there |
| `DdlCommands.AdvanceIff` | crates/mongreldb-cluster/src/ddl.rs:1125-1214 | a phase change is accepted if and only if the job runs, the expected version is its own and the phase is the next one, or the same again with the same pin; the job and its record then have it |
| `DdlCommands.UpdateIff` | crates/mongreldb-cluster/src/ddl.rs:1216-1272 | progress is taken while backfilling if and only if it does not fall back; afterwards only what is already covered, and then nothing changes |
| `DdlCommands.ForgetIff` | crates/mongreldb-cluster/src/ddl.rs:1274-1302 | forgetting is accepted if and only if the job is backfilling or validating; that tablet's entry goes and no other |
| `DdlCommands.ReportIff` | crates/mongreldb-cluster/src/ddl.rs:1304-1349 | a report is taken if and only if the job is validating and the tablet caught up; it moves the cursor to the report's watermark and validates if and only if it passed |
| `DdlCommands.PublishIff` | crates/mongreldb-cluster/src/ddl.rs:1351-1451 | a running job is published if and only if it is validating with complete evidence, its schema has not moved and an addition has its record; the record is then Public at that version |
| `DdlCommands.PublishIdleIff` | crates/mongreldb-cluster/src/ddl.rs:1351-1372 | a job that does not run is never published, and is told so again if and only if it already was |
| `DdlCommands.AlterationPublishes` | crates/mongreldb-cluster/src/ddl.rs:1390-1442 | publishing an alteration leaves its table with the job's target document at one past the source version, its database kept, and no index and no other table moved |
| `DdlCommands.SetStateIff` | crates/mongreldb-cluster/src/ddl.rs:1453-1500 | a state change is accepted if and only if the job is unfinished, the expected version is its own, and the edge exists or the state is the same; state and error are then those given |
| `DdlCommands.RemoveIff` | crates/mongreldb-cluster/src/ddl.rs:1502-1543 | a removal is accepted if and only if the job is rolling back or failed and what stands under its name is not Public; the name is then free |
| `DdlCommands.ReclaimIff` | crates/mongreldb-cluster/src/ddl.rs:1545-1576 | a reclaim is accepted if and only if the name is absent, or dropping with no reader pinned before its retirement; the name is then free |
| `DdlCommands.PinAndReleaseIff` | crates/mongreldb-cluster/src/ddl.rs:1578-1600 | a pin is taken at the version asked for if and only if it does not move back; a release always frees it |
| `TabletBuild.InMemoryDdlKeyspace.Insert` | crates/mongreldb-cluster/src/ddl.rs:1825-1830 | the version joins its key's chain in timestamp order, after equals |
| `TabletBuild.InMemoryDdlKeyspace.Delete` | crates/mongreldb-cluster/src/ddl.rs:1833-1838 | a tombstone joins its key's chain the same way |
| `TabletBuild.InMemoryDdlKeyspace.DeltasAfter` | crates/mongreldb-cluster/src/ddl.rs:1861-1875 | every version above the timestamp and no other, oldest first, each key's own versions in chain order |
| `TabletBuild.InMemoryTabletIndexes.BeginBuild` | crates/mongreldb-cluster/src/ddl.rs:1972-1977 | a fresh staged build replaces any earlier one and is counted |
| `TabletBuild.InMemoryTabletIndexes.StageEntry` | crates/mongreldb-cluster/src/ddl.rs:1979-1986 | an entry joins the staged build, or the call is refused without one |
| `TabletBuild.InMemoryTabletIndexes.InstallStaged` | crates/mongreldb-cluster/src/ddl.rs:1988-1995 | the staged build becomes the generation, or the call is refused without one |
| `TabletBuild.InMemoryTabletIndexes.ApplyDelta` | crates/mongreldb-cluster/src/ddl.rs:1997-2018 | an installed generation takes the entry or the tombstone; nothing else moves |
| `TabletBuild.InMemoryTabletIndexes.DropGeneration` | crates/mongreldb-cluster/src/ddl.rs:2020-2025 | staged build and generation of that name are gone, others stay |
| `TabletBuild.InMemoryTabletIndexes.SyncDefinitions` | crates/mongreldb-cluster/src/ddl.rs:2033-2036 | the maintained names are replaced, generations are not touched |
| `TabletBuild.InMemoryTabletIndexes.ApplyCommittedWrite` | crates/mongreldb-cluster/src/ddl.rs:2038-2059 | the raw row lands in exactly the maintained generations that are installed |
| `TabletBuild.CommitWrite` | crates/mongreldb-cluster/src/ddl.rs:2132-2154 | the row joins the rows and the maintained generations |
| `Keyspace.InsertAbove` | crates/mongreldb-cluster/src/ddl.rs:1841-1849 | a commit above a timestamp changes no read at or below it |
| `IndexBuild.ReadStartsSweep` | crates/mongreldb-cluster/src/ddl.rs:2848-2862 | a delta read turns a build right at the watermark into one whose pending deltas will make it right at the newest timestamp read |
| `IndexBuild.RacedKeepsSweeping` | crates/mongreldb-cluster/src/ddl.rs:2848-2862 | any commits above what was read, dual maintenance included, leave that true |
| `TabletBuild.Sweep` | crates/mongreldb-cluster/src/ddl.rs:2848-2862 | applying a delta stream among racing writes makes the build right at the stream's newest timestamp, and stopping anywhere leaves it right where the sweep began |
| `TabletBuild.CatchUpTablet` | crates/mongreldb-cluster/src/ddl.rs:2830-2866 | for every interleaving of finitely many writes above what was last read, catch-up ends, the returned watermark is the cursor or the timestamp of a committed version, nothing lies above it and the generation equals the projection of the rows there; a crash leaves it resumable from the same cursor, and a driver that does not die finishes |
| `TabletBuild.BackfillTablet` | crates/mongreldb-cluster/src/ddl.rs:2776-2824 | whatever an earlier attempt left behind, a finished backfill holds exactly the projection of the rows at its cursor, the pin or the timestamp of a committed version, scanned the whole pinned snapshot, and began one build |
| `TabletBuild.BackfillWithReplacements` | crates/mongreldb-cluster/src/ddl.rs:2776-2824 | drivers dying in a backfill begin one build each, and the one that completes it leaves an exact build with nothing above its cursor; drivers that do not die complete it |
| `TabletBuild.ValidateTablet` | crates/mongreldb-cluster/src/ddl.rs:2870-2912 | the report compares a from-scratch build at the watermark, the cursor or a committed version's timestamp, with the generation; without a racing write nothing lies above the watermark, and whenever nothing does the two are equal and the report passes; keys without a later write always agree |
| `TabletBuild.ValidateWithReplacements` | crates/mongreldb-cluster/src/ddl.rs:2830-2912 | from the durable cursor of a finished backfill no number of dying drivers begins another build, and each resumes where the last one could |
| `TabletBuild.BuildTablet` | crates/mongreldb-cluster/src/ddl.rs:2776-2912 | by any chain of dying drivers: builds are begun by backfills only, and without a racing write, or with nothing above the watermark at the end, the report passes and the index answers every key as the newest rows would |
| `IndexUpkeep.DrainedTracks` | crates/mongreldb-cluster/src/ddl.rs:2132-2154 | the build that publication hands over answers every key as the newest rows would |
| `IndexUpkeep.WriteTracksIff` | crates/mongreldb-cluster/src/ddl.rs:2038-2059 | one maintained write keeps a public index exact if and only if the raw row it stores is the entry of the row now newest |
| `IndexUpkeep.PublicIndexTracks` | crates/mongreldb-cluster/src/ddl.rs:2038-2059 | over any run of in-order writes a public index whose entries are the rows stays exact |
| `IndexUpkeep.CrossedMaintenanceIff` | crates/mongreldb-cluster/src/ddl.rs:2132-2154 | two commits whose maintenance runs in the other order leave the index exact if and only if they wrote the same |
| `IndexUpkeep.LateWriteVerdict` | crates/mongreldb-cluster/src/ddl.rs:2870-2912 | a write between the last delta read and the comparison leaves the compared entry sets equal exactly when it stores what the index already held |
| `PublishedIndex.LateWriteReport` | crates/mongreldb-cluster/src/ddl.rs:2870-2912 | the report on a correct build with such a write passes if and only if the write stored what the index held or the checksum misses a difference of one size |
| `PublishedIndex.PassingReportProves` | crates/mongreldb-cluster/src/ddl.rs:441-468 | a passing report with nothing above its watermark, from a checksum that separates the two sets, means the index answers every key as the newest rows would |
| `PublishedIndex.PublicIndexServes` | crates/mongreldb-cluster/src/ddl.rs:1351-1451 | the evidence in the store under a Public index is, tablet by tablet, what makes the index exact, and it stays exact through any in-order writes after validation if it stores rows |
| `IndexUpkeep.WriteBelowWatermark` | crates/mongreldb-cluster/src/ddl.rs:2830-2866 | a write at or below a swept watermark is never read again, and the build is then right exactly when it did not become the key's newest row or stored the same entry |
| `IndexUpkeep.ChecksumCollides` | crates/mongreldb-cluster/src/ddl.rs:484-491 | two different generations of one entry with the same checksum input |
| `IndexUpkeep.FixedWidthChecksumDecides` | crates/mongreldb-cluster/src/ddl.rs:484-491 | with fixed key and entry widths, equal counts and equal checksum inputs mean equal generations |
| `DdlDrivers.DdlDriver.StepJob` | crates/mongreldb-cluster/src/ddl.rs:2615-2771 | one action of a job: what each outcome means, what it leaves alone, which one edge or one tablet it moved, and that this lowers (job state, phase, unfinished tablets); a refusal is one the store has just journaled; a finished, paused or absent job is left untouched |
| `DdlDrivers.DdlDriver.StepBackfilling` | crates/mongreldb-cluster/src/ddl.rs:2652-2699 | register, forget departed tablets, build one tablet or advance, whichever comes first: the measure falls, no caught-up tablet is rebuilt, a tablet is recorded as caught up only with its build installed, and a driver that does not die advances |
| `DdlDrivers.DdlDriver.StepValidating` | crates/mongreldb-cluster/src/ddl.rs:2700-2752 | validate one tablet or publish; with complete evidence and an unmoved schema it publishes, a failed report unwinds the job, and a halt for a refusal follows one the store journaled |
| `DdlDrivers.DdlDriver.Publish` | crates/mongreldb-cluster/src/ddl.rs:2729-2751 | publication succeeds the job if and only if its evidence is complete and its schema unmoved; refused for a moved schema the job ends unwound, and refused for any other reason it is still running and the refusal is journaled |
| `DdlDrivers.DdlDriver.DriveJob` | crates/mongreldb-cluster/src/ddl.rs:2592-2611 | driving ends from every reachable store, in a state its outcome describes (unwound, terminal, paused, absent, or still running after a refusal), having rebuilt no caught-up tablet and touched no other job, record or tablet; a driver that does not die publishes every addition and alteration whose schema has not moved, unless a tablet fails validation |
| `DdlDrivers.CourseKept` | crates/mongreldb-cluster/src/ddl.rs:2592-2771 | an action on a job with nothing in the way leaves it so, or published |
| `DdlDrivers.DdlDriver.DriveWithReplacements` | crates/mongreldb-cluster/src/ddl.rs:2592-2771 | any number of drivers dying anywhere keep the same promises: a tablet once recorded CaughtUp is never built again, and an addition driven from its submission to Public has its build installed on every tablet it went through |
| `DdlDrivers.DdlDriver.Rollback` | crates/mongreldb-cluster/src/ddl.rs:2918-2946 | the unwind ends Failed with nothing of the index left, or dies leaving a job its successor unwinds again |
| `DdlDrivers.DdlDriver.DropGenerations` | crates/mongreldb-cluster/src/ddl.rs:2938-2940 | after the loop no tablet of the table holds the build, staged or installed; build counts and other tablets are untouched |
| `DdlDrivers.DdlDriver.CancelJob` | crates/mongreldb-cluster/src/ddl.rs:2463-2480 | an unfinished job is left unwinding, asked for with the version it was read at; a terminal one refuses and nothing changes |
| `DdlDrivers.DdlDriver.CancelAndDrive` | crates/mongreldb-cluster/src/ddl.rs:2918-2946 | cancelling an unfinished job at any reachable point, with drivers dying anywhere, ends Failed with no index record and no staged or installed generation on any of its tablets and with every table unchanged, or is still unwinding |
| `DriverEffects.RemoveEffect` | crates/mongreldb-cluster/src/ddl.rs:1502-1543 | an unwinding addition's record can always be removed and is then gone |
| `Partition.UnionSplits` | crates/mongreldb-cluster/src/tablet.rs:361-370 | two adjacent valid ranges always combine, and every key of the union lies in exactly one of them |
| `Partition.ValidIsInhabitedIff` | crates/mongreldb-cluster/src/tablet.rs:288-304 | a range that passes validation holds a key if and only if it is not one of two hollow forms, although validation is documented to reject empty ranges |
| `Partition.BelowIff` | crates/mongreldb-cluster/src/tablet.rs:108-109 | keys are ordered bytewise: a proper prefix first, otherwise by the first byte that differs |
| `TabletMeta.InMemoryMetaPlane.SetTablet` | crates/mongreldb-cluster/src/split.rs:861-895 | last writer wins by generation, an identical republication is a no-op, a reused generation or an older one is refused |
| `TabletMeta.InMemoryMetaPlane.RemoveTablet` | crates/mongreldb-cluster/src/split.rs:905-926 | a descriptor is removed at or above its generation |
| `TabletMeta.GenerationRises` | crates/mongreldb-cluster/src/split.rs:861-895 | publishing a descriptor never lowers or reuses a generation |
| `TabletMeta.TabletStateInto` | crates/mongreldb-cluster/src/tablet.rs:444-469 | the tablet graph read from its targets, and that a tablet is routable exactly while it has yet to be taken out of routing |
| `TabletMeta.ValidDescriptorIff` | crates/mongreldb-cluster/src/tablet.rs:615-670 | a descriptor passes validation if and only if its ids are not reserved, its range is valid, it has as many nodes and raft nodes as replicas, its leader is one of them, and only while created it may lack a voter |
| `MergePlans.AcceptedIff` | crates/mongreldb-cluster/src/merge.rs:271-340 | a pair is accepted if and only if it meets every listed requirement, and comes back lower half first |
| `MergePlans.RejectedIff` | crates/mongreldb-cluster/src/merge.rs:271-340 | a rejection names the first requirement, in the order they are checked, that the pair violates |
| `MergePlans.SamePlacementIff` | crates/mongreldb-cluster/src/merge.rs:304-319 | for valid tablets equal placement means the same nodes, in whatever order and role |
| `MergePlans.PublishableIff` | crates/mongreldb-cluster/src/merge.rs:507-589 | a valid plan's publication passes its own validation if and only if its sources are active tablets of one table |
| `MergePlans.PlannedIsPublishable` | crates/mongreldb-cluster/src/merge.rs:448-476 | every plan the planner returns can be published |
| `MergePlans.PlannedIff` | crates/mongreldb-cluster/src/merge.rs:448-476 | a plan is returned if and only if the pair is accepted, the two tablets and groups differ and the allocation is fresh; it then carries the pair in order, the allocation and the combined range |
| `MergePlans.CreatedHidden` | crates/mongreldb-cluster/src/merge.rs:403-418 | as created the replacement is hidden: learners only, no leader, in the state nothing is routed to |
| `MergePlans.ValidCommandMeans` | crates/mongreldb-cluster/src/merge.rs:541-589 | a publication that passes validation names three tablets of one table at one generation, and each key of the replacement's range lies in exactly one source and no other key in any |
| `MergePlans.GenerationsMeet` | crates/mongreldb-cluster/src/merge.rs:403-531 | all three published descriptors meet at two past the newer of the two sources' generations, one past the replacement as created; the sources change state and generation only, and the replacement serves the combined range with every learner promoted |
| `MergeData.DeltasAfter` | crates/mongreldb-cluster/src/split.rs:1069-1088 | the two loops give exactly one mutation for each key that differs from the snapshot, and no other |
| `MergeData.ReplayIff` | crates/mongreldb-cluster/src/merge.rs:988-1003 | replaying a whole diff over any content gives the present rows if and only if the keys outside the diff were right to begin with |
| `MergeData.RecoveredIff` | crates/mongreldb-cluster/src/merge.rs:988-1003 | with attempts already made, a replay reaches the present rows if and only if every key an earlier attempt wrote, and whose row is back at its snapshot row, already held that row |
| `MergeData.UnionIff` | crates/mongreldb-cluster/src/merge.rs:970-984 | a content over two disjoint ranges holds exactly two sources' rows, none lost, none twice, none extra, if and only if it agrees with each in its range |
| `MergeLayout.OwnerFollows` | crates/mongreldb-cluster/src/merge.rs:929-1062 | in every layout of a merge a key has exactly one owner if it had exactly one before |
| `MergeLayout.PartitionKept` | crates/mongreldb-cluster/src/merge.rs:929-1062 | every layout of a merge divides the table's keys as exactly as the first did |
| `MergeLayout.HalfPublishedOwnersIff` | crates/mongreldb-cluster/src/merge.rs:698-709 | a default publication dying between its descriptor writes: after the first a key has its one owner if and only if it is outside the merged range, after the second if and only if it is outside the source still serving |
| `MergeExecution.StageSnapshot` | crates/mongreldb-cluster/src/merge.rs:970-984 | a staged snapshot is copied whole; the merge fails closed only when a key lies outside the source |
| `MergeExecution.Replay` | crates/mongreldb-cluster/src/merge.rs:988-1003 | replay over whatever earlier attempts left gives every key that differs from the snapshot its present row, records what it wrote, leaves other keys alone, and fails closed only when a changed key lies outside the source |
| `MergeExecution.MergeExecutor.MarkSourcesMerging` | crates/mongreldb-cluster/src/merge.rs:929-937 | both sources stand marked, each one generation on, and dying between them leaves the lower one marked |
| `MergeExecution.MergeExecutor.CreateReplacement` | crates/mongreldb-cluster/src/merge.rs:939-947 | the hidden replacement of the plan appears and no other descriptor moves |
| `MergeState.PhaseLayout` | crates/mongreldb-cluster/src/merge.rs:860-1062 | what the durable phase says of the layout: before or after publication and nothing in between, both sources marked, the replacement there, ownership moved, sources gone |
| `MergeExecution.MergeExecutor.BuildReplacement` | crates/mongreldb-cluster/src/merge.rs:970-984 | the installed build is the union of the two pinned snapshots |
| `MergeExecution.MergeExecutor.CatchUpReplacement` | crates/mongreldb-cluster/src/merge.rs:988-1003 | with writes before and between the two reads and any number of crashed attempts behind it, what a finished catch-up read are rows each source had since the attempt began, and it holds exactly those if and only if nothing stale was left; a first attempt always does; a crash inside leaves it replayable |
| `MergeState.ReplayedIff` | crates/mongreldb-cluster/src/merge.rs:988-1003 | the law of caught-up states: the rows last read are held exactly if and only if no key written by an earlier attempt went back to its snapshot row stale, always if no attempt came before, and the present rows on the same condition if the sources are as they were at those reads |
| `MergeState.CopiedThenDeletedRowSurvives` | crates/mongreldb-cluster/src/merge.rs:988-1003 | for every plan and every key of its lower source: insert, an attempt that copies the row and crashes, delete, an attempt whose diff is empty, and the caught-up replacement holds a row neither source has |
| `MergeExecution.MergeExecutor.PublishReplacement` | crates/mongreldb-cluster/src/merge.rs:1008-1030 | one command makes the replacement the owner and retires both sources; a repeat is a no-op |
| `MergeExecution.MergeExecutor.RemoveSources` | crates/mongreldb-cluster/src/merge.rs:1035-1062 | a guard that counts a pinned request keeps both sources, nothing else does; otherwise each is retired one generation on before it is forgotten |
| `MergeExecution.MergeExecutor.StepRemove` | crates/mongreldb-cluster/src/merge.rs:1035-1062 | requests pinned at an old generation keep the sources if and only if the executor has not been resumed since publication |
| `MergeExecution.MergeExecutor.ResumeForgetsRequests` | crates/mongreldb-cluster/src/merge.rs:787-820 | a resume of a published merge in the process that holds the pinned requests removes the sources under them |
| `MergeExecution.MergeExecutor.Step` | crates/mongreldb-cluster/src/merge.rs:860-906 | each phase becomes durable only after its work, the layout and the rows are then what the phase says, and redoing it from any crash is safe |
| `MergeExecution.MergeExecutor.RunWithCrashes` | crates/mongreldb-cluster/src/merge.rs:860-1062 | over every schedule of source writes at any time, in-flight requests and crashes with resume: one owner per key throughout and generations only rise; the rows last read are rows the sources had in the run; from CaughtUp on they are held exactly if and only if nothing stale was left, and always in a run without a crash; with sources quiet since those reads the same condition decides whether the newest rows are held, and quiet since the first read they are; it stops short only for a crash, a stray key or a pinned request, and otherwise ends with the sources gone |
| `Gateway.RoutableForTable` | crates/mongreldb-cluster/src/gateway.rs:121-126 | exactly the routable tablets of the table, each once |
| `Gateway.EndpointsAreReplicas` | crates/mongreldb-cluster/src/gateway.rs:210-214 | an endpoint is offered exactly when some replica's node resolves to it |
| `Gateway.EndpointsInOrder` | crates/mongreldb-cluster/src/gateway.rs:210-214 | endpoints come in replica order, one for each replica whose node resolves |
| `Gateway.BindTablets` | crates/mongreldb-cluster/src/gateway.rs:200-236 | a target for each id, in tablet order, or a refusal naming the first id that is unknown or not routable |
| `Gateway.BindFragment` | crates/mongreldb-cluster/src/gateway.rs:184-241 | a fragment binds if and only if its tablets, or its table's, allow it; without tablets it is bound to exactly the routable tablets of its table, with tablets to exactly those, in tablet order |
| `Gateway.BindPlan` | crates/mongreldb-cluster/src/gateway.rs:168-247 | a plan binds if and only if it is not pinned behind the layout and every fragment binds; every fragment is then bound, in order, as it would be alone |
| `Gateway.EveryKeyReachedOnce` | crates/mongreldb-cluster/src/gateway.rs:168-247 | over a layout that divides the table a table-scoped fragment reaches every key through exactly one target |
| `MergeRouting.MergeKeepsEveryKeyReachable` | crates/mongreldb-cluster/src/gateway.rs:168-247 | the same in every layout a merge passes through, crashed, resumed or complete |
| `Bootstrap.NextKeeps` | crates/mongreldb-cluster/src/bootstrap.rs:334-526 | every interleaved file operation, crash and stale-lock removal keeps what each attempt has read true until it releases the lock |
| `Bootstrap.OneBootstrap` | crates/mongreldb-cluster/src/bootstrap.rs:334-423 | over every run at most one init or join ever succeeds |
| `Bootstrap.RecordsAgree` | crates/mongreldb-cluster/src/bootstrap.rs:334-423 | in every reachable state the cluster record and the join record exclude each other and name the identity's cluster |
| `Bootstrap.DecommissionedIsFinal` | crates/mongreldb-cluster/src/bootstrap.rs:497-526 | once Decommissioned a member stays so, and a directory never changes cluster |
| `Bootstrap.ClearingLiveLockBreaksExclusion` | crates/mongreldb-cluster/src/bootstrap.rs:643-668 | removing the lock of a live init lets a join through beside it, and both records exist |
| `Bootstrap.InviteIff` | crates/mongreldb-cluster/src/bootstrap.rs:528-547 | a join request is sound if and only if it names a cluster, has endpoints, each of which says something, and readable trust; an init request likewise by its address |
| `BootstrapCommands.NodeDirectory.ClusterInit` | crates/mongreldb-cluster/src/bootstrap.rs:334-385 | the command run alone leaves the files and the outcome its file operations give one after another, lock released |
| `BootstrapCommands.NodeDirectory.ClusterJoin` | crates/mongreldb-cluster/src/bootstrap.rs:394-423 | the same for join, with the mismatch refusal |
| `BootstrapCommands.NodeDirectory.EditMember` | crates/mongreldb-cluster/src/bootstrap.rs:455-526 | the same for drain and remove: read, edit, write back |
| `BootstrapCommands.NodeDirectory.Edit` | crates/mongreldb-cluster/src/bootstrap.rs:455-526 | token, member and state checks in order, and the one member changed |
| `BootstrapCommands.InitAloneIff` | crates/mongreldb-cluster/src/bootstrap.rs:334-385 | an undisturbed init succeeds if and only if its request is sound, the lock is free and nothing was bootstrapped; then exactly trust, the identity found or minted, and a record of that one member stand; refused, it names the first reason and leaves every file as it was |
| `BootstrapCommands.JoinAloneIff` | crates/mongreldb-cluster/src/bootstrap.rs:394-423 | an undisturbed join succeeds if and only if the invite is sound, the lock free, nothing bootstrapped and any existing identity names the invited cluster; then exactly trust, identity and the join record stand; refused, it names the first reason and leaves every file as it was |
| `BootstrapCommands.EditMovesOneMember` | crates/mongreldb-cluster/src/bootstrap.rs:455-526 | a drain or removal succeeds if and only if the lock is free, the node is initialized and the first member of that id may be moved so, a removal with that member's token; then that member and no other has its new state, and refused it leaves every file as it was |
| `BootstrapCommands.FirstBootAlone` | crates/mongreldb-cluster/src/node.rs:205-220 | an undisturbed first boot keeps an identity it finds and otherwise writes the minted one |
| `ClusterBackup.OrderedTablets` | crates/mongreldb-cluster/src/cluster_backup.rs:372-414 | a request is refused exactly when it is empty, reserved or repeats a tablet; otherwise the tablets come back once each in id order |
| `ClusterBackup.BackupDestination.MaterializeTablet` | crates/mongreldb-cluster/src/cluster_backup.rs:640-704 | the files of a captured tablet are byte for byte the artifact's payload, extra files and log, recorded with their sizes and hashes; it fails only for an illegal name or a failing write; other tablets' files are untouched |
| `ClusterBackup.EntryLists` | crates/mongreldb-cluster/src/cluster_backup.rs:640-704 | a tablet's record lists its payload, its extra files and its log, each with size and hash, and nothing else |
| `ClusterBackup.LegalNameIff` | crates/mongreldb-cluster/src/cluster_backup.rs:662-668 | an extra file's name is legal if and only if neither a separator nor two dots in a row occur in it |
| `ClusterBackup.StoredMatchesIff` | crates/mongreldb-cluster/src/cluster_backup.rs:640-704 | the record of a stored tablet is true of the files if and only if no extra file of another content takes the payload's name |
| `ClusterBackup.BackupDestination.CaptureTablets` | crates/mongreldb-cluster/src/cluster_backup.rs:414-424 | every tablet is captured in order, each with the bytes its storage handed over; it fails only for a tablet that cannot be captured or a failing write |
| `ClusterBackup.BackupDestination.ValidateEntries` | crates/mongreldb-cluster/src/cluster_backup.rs:706-739 | passes if and only if there is something to validate, every listed file is there with its size and hash, and sizes are in bounds |
| `ClusterBackup.BackupDestination.ResolveTimestamp` | crates/mongreldb-cluster/src/cluster_backup.rs:426-445 | a requested timestamp stands exactly when every tablet covers it; otherwise the newest covered is taken |
| `ClusterBackup.BackupDestination.PublishManifest` | crates/mongreldb-cluster/src/cluster_backup.rs:741-750 | the manifest is swapped in whole or not at all; one too large to read back has been published all the same |
| `ClusterBackup.BackupDestination.RunClusterBackup` | crates/mongreldb-cluster/src/cluster_backup.rs:368-484 | wherever the run fails or dies, a destination gains a manifest only if every listed file matches it, its files are what the storage handed over, and it answers the request, each tablet once and covering the timestamp; a run nothing disturbs publishes every request that can be met, and an invalid one is refused before anything is written |
| `ClusterBackup.BackupDestination.VerifyBackup` | crates/mongreldb-cluster/src/cluster_backup.rs:488-552 | verification succeeds if and only if the manifest is there, readable in size and sound; the counters are the number and the total size of all listed files |
| `ClusterBackup.OverwriteIff` | crates/mongreldb-cluster/src/cluster_backup.rs:779-787 | writing over an artifact leaves a backup sound if and only if every listing of that path still matches, so a second run over a published destination can break it |
| `ClientOutcome.DecimalRoundTrip` | crates/mongreldb-client/src/lib.rs:3908-3922 | every epoch survives its text form |
| `ClientOutcome.ExactEpochIff` | crates/mongreldb-client/src/lib.rs:3908-3922 | a text names an epoch if and only if it is that epoch in canonical decimal and agrees with the number beside it |
| `ClientOutcome.ValidFlatKitCells` | crates/mongreldb-client/src/lib.rs:2934-2945 | true exactly when column ids alternate with values, fit sixteen bits and are distinct |
| `ClientOutcome.ValidateKitResults` | crates/mongreldb-client/src/lib.rs:2903-2932 | true exactly when there is one matching result per operation |
| `ClientOutcome.SuccessOutcomeIff` | crates/mongreldb-client/src/lib.rs:2835-2901 | a success response reports a commit at an epoch if and only if its body proves it; otherwise the outcome is unknown |
| `ClientOutcome.ResponseIff` | crates/mongreldb-client/src/lib.rs:2835-2901 | the caller gets the response itself if and only if the body proves the commit, carries its four fields and no other, and its results decode and fit the operations one by one |
| `ClientOutcome.ProvenCommitIff` | crates/mongreldb-client/src/lib.rs:3560-3587 | the commit proof in an error body, in both directions |
| `ClientOutcome.LostEpochUnreachable` | crates/mongreldb-client/src/lib.rs:3804-3808 | the branch for a committed response that lost its epoch is dead |
| `ClientOutcome.CommittedEnvelopeIff` | crates/mongreldb-client/src/lib.rs:3699-3749 | a validated envelope says committed if and only if its body proved it, by number and text or by text alone |
| `ClientOutcome.ErrorOutcomeIff` | crates/mongreldb-client/src/lib.rs:3751-3828 | an error response reports a commit at an epoch if and only if its body proves it; nothing else is ever reported as committed |
| `ClientOutcome.CommittedErrorsAreComplete` | crates/mongreldb-client/src/lib.rs:3751-3828 | every error that says committed carries the epoch and its canonical text and is not retryable |
| `ClientOutcome.AbortedOnlyIfSaid` | crates/mongreldb-client/src/lib.rs:3751-3828 | an error says not committed only if the body says aborted and not committed, with no commit proven beside it and any op index in range |
| `ClientOutcome.AbortedIff` | crates/mongreldb-client/src/lib.rs:3751-3828 | an error reports an abort if and only if the body is a well-formed statement of one, and then carries its code, op index and retry advice |
| `ClientOutcome.RetryOnlyAfterAbort` | crates/mongreldb-client/src/lib.rs:3699-3749 | the caller is told to retry only a transaction aborted for want of idempotency storage, never one that may have committed |
| `ClientOutcome.UnreadableOpIndexHidesCommit` | crates/mongreldb-client/src/lib.rs:3568-3578 | a body that proves a commit but carries a malformed op index is reported as unknown |

## Left out

- TabletBuild.CatchUpTablet: terminates for finitely many racing writes only, because a writer that never pauses keeps the source's loop running.
- TabletBuild.CommitWrite: takes the row and its maintenance as one step; the source takes two locks one after the other, and `IndexUpkeep.CrossedMaintenanceIff` states what a crossing does.
- TabletBuild.ValidateTablet: takes the checksum as any function of the entry set; what a passing report then proves is stated under the condition in `PublishedIndex.PassingReportProves`.
- DdlDrivers.DdlDriver.BackfillTablet: records which builds a tablet holds and not their contents, which `TabletBuild` covers tablet by tablet and `PublishedIndex` joins to the store.
- DdlDrivers.DdlDriver.DriveJob: assumes a fixed tablet set, working seams and no competing commands, and leaves out pushing maintained definitions to tablets.
- MergeExecution.MergeExecutor.RemoveSources: counts pinned old-generation requests instead of listing them.
- DistSsi.DistSsiCertifier.Certify: keeps access sets as values handed over, not as shared structures.
- Integer widths: job ids, versions, epochs in the store and descriptor generations are unbounded; the overflow checks on generations are not modelled.
- Refusal texts, error messages and log output; refusals carry their kind and the values that decide it.
- Timestamps are natural numbers taken as given; hybrid-clock allocation and wall clocks are not modelled.
- Schema documents and index definitions are opaque text.
- The AlterSchema column backfill, which only counts rows and compares the scan with itself.
- The driver's sink cleanup after an index is reclaimed, and its pause, resume and status calls.
- Failed writes of the merge progress record: the model treats them as crashes, while the source advances its in-memory phase first.
- On-disk tablet layouts, their teardown and the progress file's checksum envelope.
- The split protocol, range overlap tests, the routing cache and endpoint preference.
- Corrupt or foreign bootstrap files, format versions, certificate material, status reporting and the identity wipe, which takes no lock.
- ClusterBackup.BackupDestination.CaptureTablets: takes what a tablet's storage hands over as a function of the tablet, so a capture that changes between two calls is not modelled.
- Raft identifiers, log positions and encryption metadata of backup entries, and restore planning.
- SQL and query responses, recovery polling and the typed decoding of transaction results, which is a parameter.
