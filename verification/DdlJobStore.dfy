/** The replicated store as the process holds it: records updated in place, handler by handler. */
module DdlJobStores {
  import opened Common
  import opened DdlTypes
  import opened DdlStoreSpec
  import opened DdlInvariant
  import opened DdlHistory

  /** A well-formed command over a store satisfying the invariant dispatches without panic. */
  lemma ReadyToDispatch(s: Store, c: DdlCommand, id: Option<nat>, ts: Timestamp)
    requires Inv(s) && WellFormed(s, c)
    ensures !Dispatch(Ticked(s), c, ts).Panicked?
    ensures DdlStoreSpec.Apply(s, c, id, ts).Applied? && Inv(DdlStoreSpec.Apply(s, c, id, ts).store)
  {
    StepKeeps(s, Call(c, id, ts));
  }

  class DdlJobStore {
    var metadataVersion: MetadataVersion
    var nextJobId: nat
    var tables: map<TableId, TableAnchor>
    var jobs: map<nat, DdlJobRecord>
    var indexes: map<(TableId, string), DdlIndexRecord>
    var readerPins: map<nat, MetadataVersion>
    var rejections: seq<JournalEntry>

    ghost function View(): Store
      reads this
    {
      Store(metadataVersion, nextJobId, tables, jobs, indexes, readerPins, rejections)
    }

    constructor ()
      ensures View() == EMPTY_STORE
    {
      metadataVersion, nextJobId := 0, 1;
      tables, jobs, indexes, readerPins, rejections := map[], map[], map[], map[], [];
    }

    /** What a handler may report, and the store it must leave. */
    ghost predicate Matches(before: Store, o: Outcome, r: ApplyResult)
      reads this
    {
      match o
      case Accepted(s) => r == Ok && View() == s
      case Refused(reason) => r == Err(reason) && View() == before
      case Panicked => false
    }

    /**
     * Applies one committed command: tick, dispatch, journal a refusal. A refusal touches nothing
     * else, and a well-formed command keeps the invariant; every command that does not panic applies.
     */
    method Apply(command: DdlCommand, id: Option<nat>, ts: Timestamp) returns (result: ApplyResult)
      requires !Dispatch(Ticked(View()), command, ts).Panicked?
      modifies this
      ensures Applied(View(), result) == DdlStoreSpec.Apply(old(View()), command, id, ts)
      ensures metadataVersion == old(metadataVersion) + 1
      ensures result.Err? ==> tables == old(tables) && jobs == old(jobs) && indexes == old(indexes)
      ensures result.Err? ==> readerPins == old(readerPins) && nextJobId == old(nextJobId)
      ensures old(Inv(View()) && WellFormed(View(), command)) ==> Inv(View())
    {
      result := ApplyInPlace(command, id, ts);
      if old(Inv(View()) && WellFormed(View(), command)) {
        ReadyToDispatch(old(View()), command, id, ts);
      }
    }

    /** Tick, dispatch, and journal a refusal. */
    method ApplyInPlace(command: DdlCommand, id: Option<nat>, ts: Timestamp) returns (result: ApplyResult)
      requires !Dispatch(Ticked(View()), command, ts).Panicked?
      modifies this
      ensures Applied(View(), result) == DdlStoreSpec.Apply(old(View()), command, id, ts)
      ensures metadataVersion == old(metadataVersion) + 1
      ensures result.Err? ==> tables == old(tables) && jobs == old(jobs) && indexes == old(indexes)
      ensures result.Err? ==> readerPins == old(readerPins) && nextJobId == old(nextJobId)
    {
      ghost var before := View();
      metadataVersion := metadataVersion + 1;
      assert View() == Ticked(before);
      result := DispatchCommand(command, ts);
      if result.Err? {
        JournalRefusal(id, result.reason);
      }
      VersionTicks(before, command, id, ts);
    }

    method JournalRefusal(id: Option<nat>, reason: DdlRejection)
      modifies this`rejections
      ensures View() == Journaled(old(View()), id, reason)
    {
      var all := rejections + [JournalEntry(id, reason)];
      var kept := all;
      while |kept| > DDL_REJECTION_LIMIT
        invariant |kept| >= DDL_REJECTION_LIMIT || kept == all
        invariant |kept| <= |all| && kept == all[|all| - |kept|..]
        decreases |kept|
      {
        assert kept[1..] == all[|all| - |kept| + 1..];
        kept := kept[1..];
      }
      rejections := kept;
    }

    method DispatchCommand(command: DdlCommand, ts: Timestamp) returns (result: ApplyResult)
      requires !Dispatch(View(), command, ts).Panicked?
      modifies this
      ensures Matches(old(View()), Dispatch(old(View()), command, ts), result)
    {
      match command
      case RegisterTable(anchor) => result := ApplyRegisterTable(anchor);
      case SubmitJob(job) => result := ApplySubmitJob(job, ts);
      case AdvancePhase(j, to, pin, expected) => result := ApplyAdvancePhase(j, to, pin, expected, ts);
      case UpdateTabletProgress(j, p) => result := ApplyUpdateTabletProgress(j, p, ts);
      case ForgetTabletProgress(j, t) => result := ApplyForgetTabletProgress(j, t, ts);
      case ReportTabletValidation(j, r) => result := ApplyReportTabletValidation(j, r, ts);
      case PublishJob(j, at) => result := ApplyPublishJob(j, at, ts);
      case SetJobState(j, state, at, error, expected) => result := ApplySetJobState(j, state, at, error, expected);
      case RemoveIndexRecord(j) => result := ApplyRemoveIndexRecord(j);
      case ReclaimIndex(table, name) => result := ApplyReclaimIndex(table, name);
      case PinReader(reader, v) => result := ApplyPinReader(reader, v);
      case ReleaseReader(reader) => readerPins := readerPins - {reader}; result := Ok;
    }

    method ApplyRegisterTable(anchor: TableAnchor) returns (result: ApplyResult)
      modifies this
      ensures Matches(old(View()), RegisteredTable(old(View()), anchor), result)
    {
      if anchor.tableId == 0 {
        return Err(Invalid);
      }
      if anchor.schemaVersion == 0 {
        return Err(Invalid);
      }
      if anchor.tableId in tables {
        var existing := tables[anchor.tableId];
        if anchor.schemaVersion > existing.schemaVersion {
          tables := tables[anchor.tableId := anchor.(metadataVersion := metadataVersion)];
        } else if anchor.schemaVersion == existing.schemaVersion {
          if existing.databaseId != anchor.databaseId || existing.schema != anchor.schema {
            return Err(Conflict);
          }
        } else {
          return Err(StaleWrite(existing.schemaVersion, anchor.schemaVersion));
        }
      } else {
        tables := tables[anchor.tableId := anchor.(metadataVersion := metadataVersion)];
      }
      return Ok;
    }

    method ApplySubmitJob(job: DdlJobRecord, ts: Timestamp) returns (result: ApplyResult)
      modifies this
      ensures Matches(old(View()), SubmittedJob(old(View()), job, ts), result)
    {
      if job.jobId == 0 {
        return Err(Invalid);
      }
      if job.jobId in jobs {
        var comparable := jobs[job.jobId].(metadataVersion := job.metadataVersion);
        return if comparable == job then Ok else Err(Conflict);
      }
      if job.tableId !in tables {
        return Err(NotFound);
      }
      var anchor := tables[job.tableId];
      if anchor.databaseId != job.databaseId {
        return Err(Conflict);
      }
      if anchor.schemaVersion != job.sourceSchemaVersion {
        return Err(SchemaVersionMismatch(job.tableId, job.sourceSchemaVersion, anchor.schemaVersion));
      }
      if job.state != Queued {
        return Err(Invalid);
      }
      var expectedPhase :=
        match job.kind
        case KindAddIndex => Pending
        case KindAlterSchema => Pending
        case KindDropIndex => Public;
      if job.phase != expectedPhase {
        return Err(Invalid);
      }
      if exists j :: j in jobs && jobs[j].tableId == job.tableId && !jobs[j].state.IsTerminal() {
        return Err(Conflict);
      }
      match job.definition {
        case AddIndex(name, spec) =>
          if IsBlank(name) {
            return Err(Invalid);
          }
          var key := (job.tableId, name);
          if key in indexes {
            return Err(Conflict);
          }
          indexes := indexes[key := DdlIndexRecord(job.tableId, name, spec, Pending, job.jobId, ts, None, None, None, metadataVersion)];
        case DropIndex(name) =>
          var key := (job.tableId, name);
          if key !in indexes {
            return Err(NotFound);
          }
          if indexes[key].phase != Public {
            return Err(Conflict);
          }
        case AlterSchema(_) =>
      }
      var stored := job.(metadataVersion := metadataVersion, updatedAt := ts);
      if nextJobId < job.jobId + 1 {
        nextJobId := job.jobId + 1;
      }
      jobs := jobs[job.jobId := stored];
      return Ok;
    }

    method ApplyAdvancePhase(jobId: nat, to: DdlPhase, pin: Option<Timestamp>, expected: Option<MetadataVersion>, ts: Timestamp)
      returns (result: ApplyResult)
      modifies this
      ensures Matches(old(View()), AdvancedPhase(old(View()), jobId, to, pin, expected, ts), result)
    {
      if jobId !in jobs {
        return Err(NotFound);
      }
      var job := jobs[jobId];
      if expected.Some? && expected.value != job.metadataVersion {
        return Err(StaleWrite(job.metadataVersion, expected.value));
      }
      if job.state.IsTerminal() {
        return Err(Conflict);
      }
      if job.state != Running {
        return Err(JobNotRunning(jobId, job.state));
      }
      if job.phase == to {
        if to == Backfilling && job.pinnedSnapshot != pin {
          return Err(Conflict);
        }
        return Ok;
      }
      if !job.phase.CanTransition(to) {
        return Err(IllegalPhaseTransition(jobId, job.phase, to));
      }
      if to == Public && job.kind != KindDropIndex {
        return Err(Invalid);
      }
      if to == Backfilling && pin.None? {
        return Err(Invalid);
      }
      MoveJob(jobId, to, pin, ts);
      return Ok;
    }

    method MoveJob(jobId: nat, to: DdlPhase, pin: Option<Timestamp>, ts: Timestamp)
      requires jobId in jobs
      modifies this
      ensures View() == MovedTo(old(View()), jobId, to, pin, ts)
    {
      var job := jobs[jobId].(phase := to);
      if to == Backfilling {
        job := job.(pinnedSnapshot := pin);
      }
      job := job.(updatedAt := ts, metadataVersion := metadataVersion);
      jobs := jobs[jobId := job];
      if !job.definition.AlterSchema? {
        MirrorPhase((job.tableId, job.definition.indexName), to);
      }
    }

    /** The record under the job's name, if there is one, takes the phase the job moved to. */
    method MirrorPhase(key: (TableId, string), to: DdlPhase)
      modifies this`indexes
      ensures indexes == MirroredPhase(old(View()), key, to)
    {
      if key in indexes {
        var record := indexes[key].(phase := to);
        if to == Dropping {
          record := record.(droppingSince := Some(metadataVersion));
        }
        indexes := indexes[key := record.(metadataVersion := metadataVersion)];
      }
    }

    method ApplyUpdateTabletProgress(jobId: nat, progress: TabletDdlProgress, ts: Timestamp) returns (result: ApplyResult)
      modifies this
      ensures Matches(old(View()), UpdatedTabletProgress(old(View()), jobId, progress, ts), result)
    {
      if jobId !in jobs {
        return Err(NotFound);
      }
      var job := jobs[jobId];
      var known := progress.tabletId in job.tabletProgress;
      if job.phase != Backfilling {
        if known {
          var existing := job.tabletProgress[progress.tabletId];
          if existing.stage.Rank() >= progress.stage.Rank() && existing.rowsScanned >= progress.rowsScanned {
            return Ok;
          }
        }
        return Err(Conflict);
      }
      if known {
        var existing := job.tabletProgress[progress.tabletId];
        if progress.stage.Rank() < existing.stage.Rank() {
          return Err(TabletProgressRegression(jobId, progress.tabletId));
        }
        if progress.stage == existing.stage && progress.rowsScanned < existing.rowsScanned {
          return Err(TabletProgressRegression(jobId, progress.tabletId));
        }
      }
      job := job.(tabletProgress := job.tabletProgress[progress.tabletId := progress]);
      jobs := jobs[jobId := job.(updatedAt := ts, metadataVersion := metadataVersion)];
      return Ok;
    }

    method ApplyForgetTabletProgress(jobId: nat, tablet: TabletId, ts: Timestamp) returns (result: ApplyResult)
      modifies this
      ensures Matches(old(View()), ForgottenTabletProgress(old(View()), jobId, tablet, ts), result)
    {
      if jobId !in jobs {
        return Err(NotFound);
      }
      var job := jobs[jobId];
      if job.phase != Backfilling && job.phase != Validating {
        return Err(Conflict);
      }
      if tablet in job.tabletProgress {
        job := job.(tabletProgress := job.tabletProgress - {tablet});
        jobs := jobs[jobId := job.(updatedAt := ts, metadataVersion := metadataVersion)];
      }
      return Ok;
    }

    method ApplyReportTabletValidation(jobId: nat, report: TabletValidationReport, ts: Timestamp) returns (result: ApplyResult)
      modifies this
      ensures Matches(old(View()), ReportedTabletValidation(old(View()), jobId, report, ts), result)
    {
      if jobId !in jobs {
        return Err(NotFound);
      }
      var job := jobs[jobId];
      if job.phase != Validating {
        return Err(Conflict);
      }
      if report.tabletId !in job.tabletProgress {
        return Err(NotFound);
      }
      var progress := job.tabletProgress[report.tabletId];
      if progress.stage.Rank() < CaughtUp.Rank() {
        return Err(TabletProgressRegression(jobId, report.tabletId));
      }
      if progress.stage == Validated && progress.validation == Some(report) {
        return Ok;
      }
      progress := progress.(validation := Some(report), caughtUpThrough := Some(report.watermark));
      if report.Passed() {
        progress := progress.(stage := Validated);
      }
      job := job.(tabletProgress := job.tabletProgress[report.tabletId := progress]);
      jobs := jobs[jobId := job.(updatedAt := ts, metadataVersion := metadataVersion)];
      return Ok;
    }

    method ApplyPublishJob(jobId: nat, publishedAt: Timestamp, ts: Timestamp) returns (result: ApplyResult)
      requires !PublishedJob(View(), jobId, publishedAt, ts).Panicked?
      modifies this
      ensures Matches(old(View()), PublishedJob(old(View()), jobId, publishedAt, ts), result)
    {
      if jobId !in jobs {
        return Err(NotFound);
      }
      var job := jobs[jobId];
      if job.state == Succeeded && job.phase == Public && job.kind != KindDropIndex {
        return Ok;
      }
      if job.kind == KindDropIndex {
        return Err(Invalid);
      }
      if job.state != Running {
        return Err(JobNotRunning(jobId, job.state));
      }
      if job.phase != Validating {
        return Err(IllegalPhaseTransition(jobId, job.phase, Public));
      }
      if job.tableId !in tables {
        return Err(NotFound);
      }
      var anchor := tables[job.tableId];
      if anchor.schemaVersion != job.sourceSchemaVersion {
        return Err(SchemaVersionMismatch(job.tableId, job.sourceSchemaVersion, anchor.schemaVersion));
      }
      var pending := PendingTablets(job);
      if job.tabletProgress == map[] || pending != {} {
        return Err(ValidationIncomplete(jobId, pending));
      }
      match job.definition {
        case AddIndex(name, _) =>
          var key := (job.tableId, name);
          if key !in indexes {
            return Err(NotFound);
          }
          indexes := indexes[key := indexes[key].(phase := Public, publicationVersion := Some(metadataVersion),
                                                  publishedAt := Some(publishedAt), metadataVersion := metadataVersion)];
        case AlterSchema(target) =>
          tables := tables[job.tableId := anchor.(schemaVersion := job.sourceSchemaVersion + 1, schema := target,
                                                  metadataVersion := metadataVersion)];
        case DropIndex(_) =>
          assert false;
      }
      jobs := jobs[jobId := job.(phase := Public, state := Succeeded, updatedAt := ts, metadataVersion := metadataVersion)];
      return Ok;
    }

    method ApplySetJobState(jobId: nat, state: JobState, updatedAt: Timestamp, error: Option<string>, expected: Option<MetadataVersion>)
      returns (result: ApplyResult)
      modifies this
      ensures Matches(old(View()), StateSet(old(View()), jobId, state, updatedAt, error, expected), result)
    {
      if jobId !in jobs {
        return Err(NotFound);
      }
      var record := jobs[jobId];
      if expected.Some? && expected.value != record.metadataVersion {
        return Err(StaleWrite(record.metadataVersion, expected.value));
      }
      if record.state.IsTerminal() {
        return Err(Conflict);
      }
      if record.state != state && !record.state.CanTransition(state) {
        return Err(Conflict);
      }
      if record.state == state && record.error == error {
        return Ok;
      }
      jobs := jobs[jobId := record.(state := state, updatedAt := updatedAt, error := error, metadataVersion := metadataVersion)];
      return Ok;
    }

    method ApplyRemoveIndexRecord(jobId: nat) returns (result: ApplyResult)
      modifies this
      ensures Matches(old(View()), RemovedIndexRecord(old(View()), jobId), result)
    {
      if jobId !in jobs {
        return Err(NotFound);
      }
      var job := jobs[jobId];
      if job.state != RollingBack && job.state != Failed {
        return Err(Conflict);
      }
      if job.definition.AlterSchema? {
        return Ok;
      }
      var key := (job.tableId, job.definition.indexName);
      if key !in indexes {
        return Ok;
      }
      if indexes[key].phase == Public {
        return Err(Conflict);
      }
      indexes := indexes - {key};
      jobs := jobs[jobId := job.(metadataVersion := metadataVersion)];
      return Ok;
    }

    /** Smallest version any reader holds; a retired index waits for it to pass. */
    method OldestReaderVersion() returns (oldest: Option<MetadataVersion>)
      ensures oldest == OldestReader(readerPins)
    {
      oldest := None;
      var rest := readerPins;
      while rest != map[]
        invariant rest.Keys <= readerPins.Keys
        invariant forall q :: q in rest ==> rest[q] == readerPins[q]
        invariant oldest.None? ==> rest == readerPins
        invariant oldest.Some? ==> exists q :: q in readerPins && readerPins[q] == oldest.value
        invariant oldest.Some? ==> forall q :: q in readerPins && q !in rest ==> oldest.value <= readerPins[q]
        decreases |rest|
      {
        var q :| q in rest;
        if oldest.None? || rest[q] < oldest.value {
          oldest := Some(rest[q]);
        }
        assert rest.Keys - {q} == (rest - {q}).Keys;
        rest := rest - {q};
      }
      OldestIsUnique(readerPins, oldest, OldestReader(readerPins));
    }

    method ApplyReclaimIndex(table: TableId, name: string) returns (result: ApplyResult)
      requires !ReclaimedIndex(View(), table, name).Panicked?
      modifies this
      ensures Matches(old(View()), ReclaimedIndex(old(View()), table, name), result)
    {
      var key := (table, name);
      if key !in indexes {
        return Ok;
      }
      var record := indexes[key];
      if record.phase != Dropping {
        return Err(Conflict);
      }
      var required := record.droppingSince.value;
      var oldest := OldestReaderVersion();
      if oldest.Some? && oldest.value < required {
        return Err(ReclaimBlocked(table, name, oldest, required));
      }
      indexes := indexes - {key};
      return Ok;
    }

    method ApplyPinReader(reader: nat, version: MetadataVersion) returns (result: ApplyResult)
      modifies this
      ensures Matches(old(View()), PinnedReader(old(View()), reader, version), result)
    {
      if reader == 0 {
        return Err(Invalid);
      }
      if reader in readerPins && version < readerPins[reader] {
        return Err(Conflict);
      }
      readerPins := readerPins[reader := version];
      return Ok;
    }
  }
}
