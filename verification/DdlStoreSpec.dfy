/** What each DDL command does to the abstract store. */
module DdlStoreSpec {
  import opened Common
  import opened DdlTypes

  datatype Outcome = Accepted(store: Store) | Refused(reason: DdlRejection) | Panicked

  datatype ApplyResult = Ok | Err(reason: DdlRejection)

  datatype Applied = Applied(store: Store, result: ApplyResult) | Crashed

  // In every handler below `s.version` has already been advanced for the command at hand.

  function RegisteredTable(s: Store, a: TableAnchor): Outcome {
    var inserted := Accepted(s.(tables := s.tables[a.tableId := a.(metadataVersion := s.version)]));
    if a.tableId == 0 || a.schemaVersion == 0 then Refused(Invalid)
    else if a.tableId !in s.tables then inserted
    else
      var e := s.tables[a.tableId];
      if a.schemaVersion > e.schemaVersion then inserted
      else if a.schemaVersion < e.schemaVersion then Refused(StaleWrite(e.schemaVersion, a.schemaVersion))
      else if e.databaseId == a.databaseId && e.schema == a.schema then Accepted(s)
      else Refused(Conflict)
  }

  function StartPhase(kind: DdlJobKind): DdlPhase {
    if kind == KindDropIndex then Public else Pending
  }

  predicate HasActiveJob(s: Store, table: TableId) {
    exists j :: j in s.jobs && s.jobs[j].tableId == table && !s.jobs[j].state.IsTerminal()
  }

  function FreshIndexRecord(s: Store, job: DdlJobRecord, ts: Timestamp): DdlIndexRecord
    requires job.definition.AddIndex?
  {
    DdlIndexRecord(job.tableId, job.definition.indexName, job.definition.spec, Pending, job.jobId, ts,
                   None, None, None, s.version)
  }

  function SubmittedJob(s: Store, job: DdlJobRecord, ts: Timestamp): Outcome {
    if job.jobId == 0 then Refused(Invalid)
    else if job.jobId in s.jobs then
      if s.jobs[job.jobId].(metadataVersion := job.metadataVersion) == job then Accepted(s) else Refused(Conflict)
    else if job.tableId !in s.tables then Refused(NotFound)
    else if s.tables[job.tableId].databaseId != job.databaseId then Refused(Conflict)
    else if s.tables[job.tableId].schemaVersion != job.sourceSchemaVersion then
      Refused(SchemaVersionMismatch(job.tableId, job.sourceSchemaVersion, s.tables[job.tableId].schemaVersion))
    else if job.state != Queued || job.phase != StartPhase(job.kind) then Refused(Invalid)
    else if HasActiveJob(s, job.tableId) then Refused(Conflict)
    else
      var stored := job.(metadataVersion := s.version, updatedAt := ts);
      var s' := s.(nextJobId := if s.nextJobId < job.jobId + 1 then job.jobId + 1 else s.nextJobId,
                   jobs := s.jobs[job.jobId := stored]);
      match job.definition
      case AddIndex(name, _) =>
        if IsBlank(name) then Refused(Invalid)
        else if job.IndexKey() in s.indexes then Refused(Conflict)
        else Accepted(s'.(indexes := s.indexes[job.IndexKey() := FreshIndexRecord(s, job, ts)]))
      case DropIndex(_) =>
        if job.IndexKey() !in s.indexes then Refused(NotFound)
        else if !s.indexes[job.IndexKey()].phase.Public? then Refused(Conflict)
        else Accepted(s')
      case AlterSchema(_) => Accepted(s')
  }

  function MirroredPhase(s: Store, key: (TableId, string), to: DdlPhase): map<(TableId, string), DdlIndexRecord> {
    if key !in s.indexes then s.indexes else
    var since := if to.Dropping? then Some(s.version) else s.indexes[key].droppingSince;
    s.indexes[key := s.indexes[key].(phase := to, droppingSince := since, metadataVersion := s.version)]
  }

  /** The job moves to `to`, and the index record its definition names follows. */
  function MovedTo(s: Store, jobId: nat, to: DdlPhase, pin: Option<Timestamp>, ts: Timestamp): Store
    requires jobId in s.jobs
  {
    var job := s.jobs[jobId];
    var moved := job.(phase := to,
                      pinnedSnapshot := if to.Backfilling? then pin else job.pinnedSnapshot,
                      updatedAt := ts,
                      metadataVersion := s.version);
    s.(jobs := s.jobs[jobId := moved],
       indexes := if job.HasIndex() then MirroredPhase(s, job.IndexKey(), to) else s.indexes)
  }

  function AdvancedPhase(s: Store, jobId: nat, to: DdlPhase, pin: Option<Timestamp>, expected: Option<MetadataVersion>, ts: Timestamp): Outcome {
    if jobId !in s.jobs then Refused(NotFound) else
    var job := s.jobs[jobId];
    if expected.Some? && expected.value != job.metadataVersion then
      Refused(StaleWrite(job.metadataVersion, expected.value))
    else if job.state.IsTerminal() then Refused(Conflict)
    else if job.state != Running then Refused(JobNotRunning(jobId, job.state))
    else if job.phase == to then
      if to.Backfilling? && job.pinnedSnapshot != pin then Refused(Conflict) else Accepted(s)
    else if !job.phase.CanTransition(to) then Refused(IllegalPhaseTransition(jobId, job.phase, to))
    else if to.Public? && job.kind != KindDropIndex then Refused(Invalid)
    else if to.Backfilling? && pin.None? then Refused(Invalid)
    else Accepted(MovedTo(s, jobId, to, pin, ts))
  }

  predicate Dominated(job: DdlJobRecord, p: TabletDdlProgress) {
    && p.tabletId in job.tabletProgress
    && job.tabletProgress[p.tabletId].stage.Rank() >= p.stage.Rank()
    && job.tabletProgress[p.tabletId].rowsScanned >= p.rowsScanned
  }

  predicate Regresses(job: DdlJobRecord, p: TabletDdlProgress) {
    && p.tabletId in job.tabletProgress
    && (|| p.stage.Rank() < job.tabletProgress[p.tabletId].stage.Rank()
        || (p.stage == job.tabletProgress[p.tabletId].stage && p.rowsScanned < job.tabletProgress[p.tabletId].rowsScanned))
  }

  function WithProgress(s: Store, jobId: nat, progress: map<TabletId, TabletDdlProgress>, ts: Timestamp): Store
    requires jobId in s.jobs
  {
    s.(jobs := s.jobs[jobId := s.jobs[jobId].(tabletProgress := progress, updatedAt := ts, metadataVersion := s.version)])
  }

  function UpdatedTabletProgress(s: Store, jobId: nat, p: TabletDdlProgress, ts: Timestamp): Outcome {
    if jobId !in s.jobs then Refused(NotFound) else
    var job := s.jobs[jobId];
    if !job.phase.Backfilling? then
      if Dominated(job, p) then Accepted(s) else Refused(Conflict)
    else if Regresses(job, p) then Refused(TabletProgressRegression(jobId, p.tabletId))
    else Accepted(WithProgress(s, jobId, job.tabletProgress[p.tabletId := p], ts))
  }

  function ForgottenTabletProgress(s: Store, jobId: nat, tablet: TabletId, ts: Timestamp): Outcome {
    if jobId !in s.jobs then Refused(NotFound) else
    var job := s.jobs[jobId];
    if !job.phase.Backfilling? && !job.phase.Validating? then Refused(Conflict)
    else if tablet !in job.tabletProgress then Accepted(s)
    else Accepted(WithProgress(s, jobId, job.tabletProgress - {tablet}, ts))
  }

  function ReportedTabletValidation(s: Store, jobId: nat, report: TabletValidationReport, ts: Timestamp): Outcome {
    if jobId !in s.jobs then Refused(NotFound) else
    var job := s.jobs[jobId];
    if !job.phase.Validating? then Refused(Conflict)
    else if report.tabletId !in job.tabletProgress then Refused(NotFound)
    else
      var p := job.tabletProgress[report.tabletId];
      if p.stage.Rank() < CaughtUp.Rank() then Refused(TabletProgressRegression(jobId, report.tabletId))
      else if p.stage.Validated? && p.validation == Some(report) then Accepted(s)
      else
        var p' := p.(validation := Some(report),
                     caughtUpThrough := Some(report.watermark),
                     stage := if report.Passed() then Validated else p.stage);
        Accepted(WithProgress(s, jobId, job.tabletProgress[report.tabletId := p'], ts))
  }

  function PendingTablets(job: DdlJobRecord): set<TabletId> {
    set t | t in job.tabletProgress && !job.tabletProgress[t].IsProven() :: job.tabletProgress[t].tabletId
  }

  function PublishedJob(s: Store, jobId: nat, publishedAt: Timestamp, ts: Timestamp): Outcome {
    if jobId !in s.jobs then Refused(NotFound) else
    var job := s.jobs[jobId];
    if job.state.Succeeded? && job.phase.Public? && job.kind != KindDropIndex then Accepted(s)
    else if job.kind == KindDropIndex then Refused(Invalid)
    else if job.state != Running then Refused(JobNotRunning(jobId, job.state))
    else if !job.phase.Validating? then Refused(IllegalPhaseTransition(jobId, job.phase, Public))
    else if job.tableId !in s.tables then Refused(NotFound)
    else if s.tables[job.tableId].schemaVersion != job.sourceSchemaVersion then
      Refused(SchemaVersionMismatch(job.tableId, job.sourceSchemaVersion, s.tables[job.tableId].schemaVersion))
    else if job.tabletProgress == map[] || PendingTablets(job) != {} then
      Refused(ValidationIncomplete(jobId, PendingTablets(job)))
    else
      var done := job.(phase := Public, state := Succeeded, updatedAt := ts, metadataVersion := s.version);
      var s' := s.(jobs := s.jobs[jobId := done]);
      match job.definition
      case AddIndex(_, _) =>
        if job.IndexKey() !in s.indexes then Refused(NotFound) else
        var r := s.indexes[job.IndexKey()].(phase := Public,
                                            publicationVersion := Some(s.version),
                                            publishedAt := Some(publishedAt),
                                            metadataVersion := s.version);
        Accepted(s'.(indexes := s.indexes[job.IndexKey() := r]))
      case AlterSchema(target) =>
        var a := s.tables[job.tableId].(schemaVersion := job.sourceSchemaVersion + 1,
                                        schema := target,
                                        metadataVersion := s.version);
        Accepted(s'.(tables := s.tables[job.tableId := a]))
      case DropIndex(_) => Panicked
  }

  function StateSet(s: Store, jobId: nat, state: JobState, updatedAt: Timestamp, error: Option<string>, expected: Option<MetadataVersion>): Outcome {
    if jobId !in s.jobs then Refused(NotFound) else
    var job := s.jobs[jobId];
    if expected.Some? && expected.value != job.metadataVersion then
      Refused(StaleWrite(job.metadataVersion, expected.value))
    else if job.state.IsTerminal() then Refused(Conflict)
    else if job.state != state && !job.state.CanTransition(state) then Refused(Conflict)
    else if job.state == state && job.error == error then Accepted(s)
    else Accepted(s.(jobs := s.jobs[jobId := job.(state := state, updatedAt := updatedAt, error := error, metadataVersion := s.version)]))
  }

  function RemovedIndexRecord(s: Store, jobId: nat): Outcome {
    if jobId !in s.jobs then Refused(NotFound) else
    var job := s.jobs[jobId];
    if !job.state.RollingBack? && !job.state.Failed? then Refused(Conflict)
    else if !job.HasIndex() || job.IndexKey() !in s.indexes then Accepted(s)
    else if s.indexes[job.IndexKey()].phase.Public? then Refused(Conflict)
    else Accepted(s.(indexes := s.indexes - {job.IndexKey()},
                     jobs := s.jobs[jobId := job.(metadataVersion := s.version)]))
  }

  ghost function ReclaimedIndex(s: Store, table: TableId, name: string): Outcome {
    if (table, name) !in s.indexes then Accepted(s) else
    var r := s.indexes[(table, name)];
    if !r.phase.Dropping? then Refused(Conflict)
    else if r.droppingSince.None? then Panicked
    else if exists q :: q in s.pins && s.pins[q] < r.droppingSince.value then
      Refused(ReclaimBlocked(table, name, OldestReader(s.pins), r.droppingSince.value))
    else Accepted(s.(indexes := s.indexes - {(table, name)}))
  }

  function PinnedReader(s: Store, reader: nat, v: MetadataVersion): Outcome {
    if reader == 0 then Refused(Invalid)
    else if reader in s.pins && v < s.pins[reader] then Refused(Conflict)
    else Accepted(s.(pins := s.pins[reader := v]))
  }

  ghost function Dispatch(s: Store, c: DdlCommand, ts: Timestamp): Outcome {
    match c
    case RegisterTable(anchor) => RegisteredTable(s, anchor)
    case SubmitJob(job) => SubmittedJob(s, job, ts)
    case AdvancePhase(j, to, pin, expected) => AdvancedPhase(s, j, to, pin, expected, ts)
    case UpdateTabletProgress(j, p) => UpdatedTabletProgress(s, j, p, ts)
    case ForgetTabletProgress(j, t) => ForgottenTabletProgress(s, j, t, ts)
    case ReportTabletValidation(j, r) => ReportedTabletValidation(s, j, r, ts)
    case PublishJob(j, at) => PublishedJob(s, j, at, ts)
    case SetJobState(j, state, at, error, expected) => StateSet(s, j, state, at, error, expected)
    case RemoveIndexRecord(j) => RemovedIndexRecord(s, j)
    case ReclaimIndex(table, name) => ReclaimedIndex(s, table, name)
    case PinReader(reader, v) => PinnedReader(s, reader, v)
    case ReleaseReader(reader) => Accepted(s.(pins := s.pins - {reader}))
  }

  function Ticked(s: Store): Store { s.(version := s.version + 1) }

  function Journaled(s: Store, id: Option<nat>, reason: DdlRejection): Store {
    s.(journal := Tail(s.journal + [JournalEntry(id, reason)], DDL_REJECTION_LIMIT))
  }

  /** One applied command: the version ticks, then the handler runs, then a refusal is journaled. */
  ghost function Apply(s: Store, c: DdlCommand, id: Option<nat>, ts: Timestamp): Applied {
    match Dispatch(Ticked(s), c, ts)
    case Accepted(s') => Applied(s', Ok)
    case Refused(reason) => Applied(Journaled(Ticked(s), id, reason), Err(reason))
    case Panicked => Crashed
  }
}
