/** The invariant of the DDL store over every run of well-formed commands. */
module DdlInvariant {
  import opened Common
  import opened DdlTypes
  import opened DdlStoreSpec

  /** The driver builds jobs whose kind names their definition, with no progress, and unwinds only
      its own index record; `apply` checks neither. */
  ghost predicate WellFormed(s: Store, c: DdlCommand) {
    match c
    case SubmitJob(job) => KindMatches(job) && job.tabletProgress == map[] && job.pinnedSnapshot == None
    case RemoveIndexRecord(j) =>
      j in s.jobs && s.jobs[j].HasIndex() && s.jobs[j].IndexKey() in s.indexes ==>
        s.indexes[s.jobs[j].IndexKey()].jobId == j
    case _ => true
  }

  predicate KindMatches(job: DdlJobRecord) {
    match job.kind
    case KindAddIndex => job.definition.AddIndex?
    case KindDropIndex => job.definition.DropIndex?
    case KindAlterSchema => job.definition.AlterSchema?
  }

  /** Not yet terminal and not being unwound. */
  predicate IsLive(state: JobState) { !state.IsTerminal() && !state.RollingBack? }

  /** The evidence a publication rests on. */
  predicate HasEvidence(job: DdlJobRecord) {
    && job.tabletProgress != map[]
    && forall t :: t in job.tabletProgress ==> job.tabletProgress[t].IsProven()
  }

  predicate PhaseOk(job: DdlJobRecord) {
    match job.kind
    case KindDropIndex => job.phase.Public? || job.phase.Dropping?
    case _ =>
      && (job.phase.IsHidden() || (job.phase.Public? && job.state.Succeeded? && HasEvidence(job)))
      && (!job.phase.Pending? && !job.phase.WriteOnly? ==> job.pinnedSnapshot.Some?)
  }

  predicate JobOk(tables: map<TableId, TableAnchor>, j: nat, job: DdlJobRecord) {
    && job.jobId == j && KindMatches(job) && PhaseOk(job)
    && (forall t :: t in job.tabletProgress ==> job.tabletProgress[t].tabletId == t)
    && job.tableId in tables && job.sourceSchemaVersion <= tables[job.tableId].schemaVersion
  }

  /** Publication and retirement stamps match the phase, and lie in the past. */
  predicate StampsOk(version: MetadataVersion, r: DdlIndexRecord) {
    match r.phase
    case Public =>
      r.publicationVersion.Some? && r.publishedAt.Some? && r.publicationVersion.value <= version && r.droppingSince.None?
    case Dropping =>
      && r.publicationVersion.Some? && r.publishedAt.Some? && r.droppingSince.Some?
      && r.publicationVersion.value < r.droppingSince.value <= version
    case _ => r.publicationVersion.None? && r.publishedAt.None? && r.droppingSince.None?
  }

  /** A record belongs to the job that created it, and mirrors that job until it is published. */
  predicate OwnedBy(key: (TableId, string), r: DdlIndexRecord, job: DdlJobRecord) {
    && job.tableId == key.0 && job.kind.KindAddIndex? && job.definition == AddIndex(key.1, r.definition)
    && (if r.phase.IsHidden() then r.phase == job.phase else job.phase.Public?)
  }

  predicate RecordOk(jobs: map<nat, DdlJobRecord>, version: MetadataVersion, key: (TableId, string), r: DdlIndexRecord) {
    && r.tableId == key.0 && r.indexName == key.1 && StampsOk(version, r)
    && r.jobId in jobs && OwnedBy(key, r, jobs[r.jobId])
  }

  /** A live addition still has its record, an unfinished one no other's; a drop finds its index Public until it retires it. */
  predicate LinkOk(indexes: map<(TableId, string), DdlIndexRecord>, job: DdlJobRecord) {
    match job.definition
    case AddIndex(_, _) =>
      && (IsLive(job.state) ==> job.IndexKey() in indexes)
      && (!job.state.IsTerminal() && job.IndexKey() in indexes ==> indexes[job.IndexKey()].jobId == job.jobId)
    case DropIndex(_) =>
      !job.state.IsTerminal() ==>
        if job.phase.Public? then job.IndexKey() in indexes && indexes[job.IndexKey()].phase.Public?
        else job.IndexKey() in indexes ==> indexes[job.IndexKey()].phase.Dropping?
    case AlterSchema(_) => true
  }

  ghost predicate OneActive(jobs: map<nat, DdlJobRecord>) {
    forall i, j | i in jobs && j in jobs && jobs[i].tableId == jobs[j].tableId ::
      !jobs[i].state.IsTerminal() && !jobs[j].state.IsTerminal() ==> i == j
  }

  ghost predicate JobsOk(s: Store) {
    forall j :: j in s.jobs ==> j < s.nextJobId && JobOk(s.tables, j, s.jobs[j])
  }

  ghost predicate RecordsOk(s: Store) {
    forall k {:trigger RecordOk(s.jobs, s.version, k, s.indexes[k])} ::
      k in s.indexes ==> RecordOk(s.jobs, s.version, k, s.indexes[k])
  }

  ghost predicate LinksOk(s: Store) {
    forall j :: j in s.jobs ==> LinkOk(s.indexes, s.jobs[j])
  }

  ghost predicate Inv(s: Store) {
    JobsOk(s) && RecordsOk(s) && LinksOk(s) && OneActive(s.jobs)
  }

  // ------------------------------------------------------------ preservation

  lemma TickKeeps(s: Store)
    requires Inv(s)
    ensures Inv(Ticked(s))
  {
    forall k | k in s.indexes ensures RecordOk(s.jobs, s.version + 1, k, s.indexes[k]) {
      assert RecordOk(s.jobs, s.version, k, s.indexes[k]);
    }
  }

  /** A job may change its progress, error and stamps at will, and its state downwards, as long as
      it stays in its phase. */
  predicate Refreshes(job: DdlJobRecord, job': DdlJobRecord) {
    && job'.jobId == job.jobId && job'.kind == job.kind && job'.definition == job.definition
    && job'.tableId == job.tableId && job'.sourceSchemaVersion == job.sourceSchemaVersion && job'.phase == job.phase
    && (IsLive(job'.state) ==> IsLive(job.state))
    && (!job'.state.IsTerminal() ==> !job.state.IsTerminal())
  }

  lemma RefreshKeeps(s: Store, j: nat, job': DdlJobRecord)
    requires Inv(s) && j in s.jobs && Refreshes(s.jobs[j], job') && JobOk(s.tables, j, job')
    ensures Inv(s.(jobs := s.jobs[j := job']))
  {
    var jobs' := s.jobs[j := job'];
    forall k | k in s.indexes ensures RecordOk(jobs', s.version, k, s.indexes[k]) {
      assert RecordOk(s.jobs, s.version, k, s.indexes[k]);
    }
    forall i | i in jobs' ensures LinkOk(s.indexes, jobs'[i]) {
      assert LinkOk(s.indexes, s.jobs[i]);
    }
  }

  lemma UpdateKeeps(s: Store, j: nat, p: TabletDdlProgress, ts: Timestamp)
    requires Inv(s) && UpdatedTabletProgress(s, j, p, ts).Accepted?
    ensures Inv(UpdatedTabletProgress(s, j, p, ts).store)
  {
    var s' := UpdatedTabletProgress(s, j, p, ts).store;
    if s' != s {
      assert JobOk(s.tables, j, s.jobs[j]);
      assert s' == s.(jobs := s.jobs[j := s'.jobs[j]]);
      assert JobOk(s.tables, j, s'.jobs[j]) && Refreshes(s.jobs[j], s'.jobs[j]);
      RefreshKeeps(s, j, s'.jobs[j]);
    }
  }

  lemma ForgetKeeps(s: Store, j: nat, t: TabletId, ts: Timestamp)
    requires Inv(s) && ForgottenTabletProgress(s, j, t, ts).Accepted?
    ensures Inv(ForgottenTabletProgress(s, j, t, ts).store)
  {
    var s' := ForgottenTabletProgress(s, j, t, ts).store;
    if s' != s {
      assert JobOk(s.tables, j, s.jobs[j]);
      assert s' == s.(jobs := s.jobs[j := s'.jobs[j]]);
      assert JobOk(s.tables, j, s'.jobs[j]) && Refreshes(s.jobs[j], s'.jobs[j]);
      RefreshKeeps(s, j, s'.jobs[j]);
    }
  }

  lemma ReportKeeps(s: Store, j: nat, r: TabletValidationReport, ts: Timestamp)
    requires Inv(s) && ReportedTabletValidation(s, j, r, ts).Accepted?
    ensures Inv(ReportedTabletValidation(s, j, r, ts).store)
  {
    var s' := ReportedTabletValidation(s, j, r, ts).store;
    if s' != s {
      assert JobOk(s.tables, j, s.jobs[j]);
      assert s' == s.(jobs := s.jobs[j := s'.jobs[j]]);
      assert JobOk(s.tables, j, s'.jobs[j]) && Refreshes(s.jobs[j], s'.jobs[j]);
      RefreshKeeps(s, j, s'.jobs[j]);
    }
  }

  lemma SetStateKeeps(s: Store, j: nat, state: JobState, at: Timestamp, error: Option<string>, expected: Option<MetadataVersion>)
    requires Inv(s) && StateSet(s, j, state, at, error, expected).Accepted?
    ensures Inv(StateSet(s, j, state, at, error, expected).store)
  {
    var s' := StateSet(s, j, state, at, error, expected).store;
    if s' != s {
      assert JobOk(s.tables, j, s.jobs[j]);
      assert s' == s.(jobs := s.jobs[j := s'.jobs[j]]);
      assert JobOk(s.tables, j, s'.jobs[j]) && Refreshes(s.jobs[j], s'.jobs[j]);
      RefreshKeeps(s, j, s'.jobs[j]);
    }
  }

  lemma RegisterKeeps(s: Store, a: TableAnchor)
    requires Inv(s) && RegisteredTable(s, a).Accepted?
    ensures Inv(RegisteredTable(s, a).store)
  {
  }

  /** Every stamp predates the command being applied. */
  ghost predicate StampsPast(s: Store) {
    forall k :: k in s.indexes && s.indexes[k].publicationVersion.Some? ==>
      s.indexes[k].publicationVersion.value < s.version
  }

  lemma TickIsPast(s: Store)
    requires Inv(s)
    ensures StampsPast(Ticked(s))
  {
    forall k | k in s.indexes ensures StampsOk(s.version, s.indexes[k]) {
      assert RecordOk(s.jobs, s.version, k, s.indexes[k]);
    }
  }

  /** Replacing job `j` together with the record it drives. */
  ghost predicate Drives(s: Store, j: nat, job': DdlJobRecord, r': DdlIndexRecord) {
    && j in s.jobs && !s.jobs[j].state.IsTerminal() && s.jobs[j].HasIndex() && s.jobs[j].IndexKey() in s.indexes
    && job'.tableId == s.jobs[j].tableId && job'.definition == s.jobs[j].definition
    && JobOk(s.tables, j, job')
    && RecordOk(s.jobs[j := job'], s.version, s.jobs[j].IndexKey(), r')
    && LinkOk(s.indexes[s.jobs[j].IndexKey() := r'], job')
  }

  lemma DriveKeepsRecords(s: Store, j: nat, job': DdlJobRecord, r': DdlIndexRecord)
    requires RecordsOk(s) && Drives(s, j, job', r')
    ensures RecordsOk(s.(jobs := s.jobs[j := job'], indexes := s.indexes[s.jobs[j].IndexKey() := r']))
  {
    var key := s.jobs[j].IndexKey();
    forall k | k in s.indexes && k != key ensures RecordOk(s.jobs[j := job'], s.version, k, s.indexes[k]) {
      assert RecordOk(s.jobs, s.version, k, s.indexes[k]);
      assert s.indexes[k].jobId != j;
    }
  }

  lemma DriveKeepsLinks(s: Store, j: nat, job': DdlJobRecord, r': DdlIndexRecord)
    requires Inv(s) && Drives(s, j, job', r')
    ensures LinksOk(s.(jobs := s.jobs[j := job'], indexes := s.indexes[s.jobs[j].IndexKey() := r']))
  {
  }

  lemma DriveKeeps(s: Store, j: nat, job': DdlJobRecord, r': DdlIndexRecord)
    requires Inv(s) && Drives(s, j, job', r')
    ensures Inv(s.(jobs := s.jobs[j := job'], indexes := s.indexes[s.jobs[j].IndexKey() := r']))
  {
    DriveKeepsRecords(s, j, job', r');
    DriveKeepsLinks(s, j, job', r');
  }

  /** A job with no index record of its own moves on. */
  lemma MoveAloneKeeps(s: Store, j: nat, job': DdlJobRecord)
    requires Inv(s) && j in s.jobs && s.jobs[j].definition.AlterSchema? && job'.definition.AlterSchema?
    requires !s.jobs[j].state.IsTerminal() && job'.tableId == s.jobs[j].tableId && JobOk(s.tables, j, job')
    ensures Inv(s.(jobs := s.jobs[j := job']))
  {
    forall k | k in s.indexes ensures RecordOk(s.jobs[j := job'], s.version, k, s.indexes[k]) {
      assert RecordOk(s.jobs, s.version, k, s.indexes[k]);
    }
  }

  lemma AdvanceDrives(s: Store, j: nat, to: DdlPhase, pin: Option<Timestamp>, expected: Option<MetadataVersion>, ts: Timestamp)
    requires j in s.jobs && s.jobs[j].HasIndex() && s.jobs[j].phase != to && StampsPast(s)
    requires JobOk(s.tables, j, s.jobs[j]) && LinkOk(s.indexes, s.jobs[j])
    requires s.jobs[j].IndexKey() in s.indexes ==>
               RecordOk(s.jobs, s.version, s.jobs[j].IndexKey(), s.indexes[s.jobs[j].IndexKey()])
    requires AdvancedPhase(s, j, to, pin, expected, ts).Accepted?
    ensures s.jobs[j].IndexKey() in s.indexes
    ensures var s' := MovedTo(s, j, to, pin, ts); Drives(s, j, s'.jobs[j], s'.indexes[s.jobs[j].IndexKey()])
  {
  }

  lemma AdvanceKeeps(s: Store, j: nat, to: DdlPhase, pin: Option<Timestamp>, expected: Option<MetadataVersion>, ts: Timestamp)
    requires Inv(s) && StampsPast(s) && AdvancedPhase(s, j, to, pin, expected, ts).Accepted?
    ensures Inv(AdvancedPhase(s, j, to, pin, expected, ts).store)
  {
    if s.jobs[j].phase != to {
      var s' := MovedTo(s, j, to, pin, ts);
      assert JobOk(s.tables, j, s.jobs[j]) && LinkOk(s.indexes, s.jobs[j]);
      if s.jobs[j].HasIndex() {
        AdvanceDrives(s, j, to, pin, expected, ts);
        DriveKeeps(s, j, s'.jobs[j], s'.indexes[s.jobs[j].IndexKey()]);
      } else {
        assert JobOk(s.tables, j, s.jobs[j]);
        MoveAloneKeeps(s, j, s'.jobs[j]);
      }
    }
  }

  /** A job arrives on a table with no active one, perhaps with a fresh index record. */
  ghost predicate Arrives(s: Store, job: DdlJobRecord, indexes': map<(TableId, string), DdlIndexRecord>) {
    && job.jobId !in s.jobs && !HasActiveJob(s, job.tableId)
    && JobOk(s.tables, job.jobId, job) && LinkOk(indexes', job)
    && (indexes' == s.indexes ||
        (job.HasIndex() && job.IndexKey() !in s.indexes &&
         exists r :: RecordOk(map[job.jobId := job], s.version, job.IndexKey(), r) && indexes' == s.indexes[job.IndexKey() := r]))
  }

  lemma ArrivalKeepsRecords(s: Store, job: DdlJobRecord, indexes': map<(TableId, string), DdlIndexRecord>)
    requires RecordsOk(s) && Arrives(s, job, indexes')
    ensures RecordsOk(s.(jobs := s.jobs[job.jobId := job], indexes := indexes'))
  {
    forall k | k in s.indexes ensures RecordOk(s.jobs[job.jobId := job], s.version, k, s.indexes[k]) {
      assert RecordOk(s.jobs, s.version, k, s.indexes[k]);
    }
  }

  lemma ArrivalKeepsLinks(s: Store, job: DdlJobRecord, indexes': map<(TableId, string), DdlIndexRecord>)
    requires LinksOk(s) && Arrives(s, job, indexes')
    ensures LinksOk(s.(jobs := s.jobs[job.jobId := job], indexes := indexes'))
  {
  }

  lemma ArrivalKeeps(s: Store, job: DdlJobRecord, indexes': map<(TableId, string), DdlIndexRecord>, next: nat)
    requires Inv(s) && Arrives(s, job, indexes') && s.nextJobId <= next && job.jobId < next
    ensures Inv(s.(jobs := s.jobs[job.jobId := job], indexes := indexes', nextJobId := next))
  {
    ArrivalKeepsRecords(s, job, indexes');
    ArrivalKeepsLinks(s, job, indexes');
  }

  lemma SubmitKeeps(s: Store, job: DdlJobRecord, ts: Timestamp)
    requires Inv(s) && WellFormed(s, SubmitJob(job)) && SubmittedJob(s, job, ts).Accepted?
    ensures Inv(SubmittedJob(s, job, ts).store)
  {
    if job.jobId !in s.jobs {
      var s' := SubmittedJob(s, job, ts).store;
      var stored := s'.jobs[job.jobId];
      if job.definition.AddIndex? {
        assert RecordOk(map[job.jobId := stored], s.version, job.IndexKey(), FreshIndexRecord(s, job, ts));
      }
      ArrivalKeeps(s, stored, s'.indexes, s'.nextJobId);
    }
  }

  lemma ProvenTablets(job: DdlJobRecord)
    ensures job.tabletProgress != map[] && PendingTablets(job) == {} ==> HasEvidence(job)
  {
    if job.tabletProgress != map[] && !HasEvidence(job) {
      var t :| t in job.tabletProgress && !job.tabletProgress[t].IsProven();
      assert job.tabletProgress[t].tabletId in PendingTablets(job);
    }
  }

  lemma PublishDrives(s: Store, j: nat, at: Timestamp, ts: Timestamp)
    requires j in s.jobs && JobOk(s.tables, j, s.jobs[j]) && LinkOk(s.indexes, s.jobs[j])
    requires s.jobs[j].HasIndex() && s.jobs[j].phase.Validating?
    requires s.jobs[j].IndexKey() in s.indexes ==>
               RecordOk(s.jobs, s.version, s.jobs[j].IndexKey(), s.indexes[s.jobs[j].IndexKey()])
    requires PublishedJob(s, j, at, ts).Accepted?
    ensures var s' := PublishedJob(s, j, at, ts).store; Drives(s, j, s'.jobs[j], s'.indexes[s.jobs[j].IndexKey()])
  {
    ProvenTablets(s.jobs[j]);
  }

  /** The table an alteration publishes on moves to the next schema version. */
  lemma AlterKeeps(s: Store, j: nat, at: Timestamp, ts: Timestamp)
    requires Inv(s) && j in s.jobs && s.jobs[j].definition.AlterSchema? && s.jobs[j].phase.Validating?
    requires PublishedJob(s, j, at, ts).Accepted?
    ensures Inv(PublishedJob(s, j, at, ts).store)
  {
    var s' := PublishedJob(s, j, at, ts).store;
    assert JobOk(s.tables, j, s.jobs[j]);
    ProvenTablets(s.jobs[j]);
    MoveAloneKeeps(s, j, s'.jobs[j]);
    forall i | i in s'.jobs ensures JobOk(s'.tables, i, s'.jobs[i]) {
      assert JobOk(s.tables, i, s'.jobs[i]);
    }
  }

  lemma PublishKeeps(s: Store, j: nat, at: Timestamp, ts: Timestamp)
    requires Inv(s)
    ensures !PublishedJob(s, j, at, ts).Panicked?
    ensures PublishedJob(s, j, at, ts).Accepted? ==> Inv(PublishedJob(s, j, at, ts).store)
  {
    if j in s.jobs {
      var job := s.jobs[j];
      assert JobOk(s.tables, j, job) && LinkOk(s.indexes, job);
      if PublishedJob(s, j, at, ts).Accepted? && job.phase.Validating? {
        if job.HasIndex() {
          var s' := PublishedJob(s, j, at, ts).store;
          PublishDrives(s, j, at, ts);
          DriveKeeps(s, j, s'.jobs[j], s'.indexes[job.IndexKey()]);
        } else {
          AlterKeeps(s, j, at, ts);
        }
      }
    }
  }

  /** A record leaves: nobody live drives it, and no drop still expects it Public. */
  lemma RemovalKeeps(s: Store, key: (TableId, string))
    requires Inv(s) && key in s.indexes && !s.indexes[key].phase.Public?
    requires s.indexes[key].jobId in s.jobs && !IsLive(s.jobs[s.indexes[key].jobId].state)
    ensures Inv(s.(indexes := s.indexes - {key}))
  {
  }

  lemma RemoveKeeps(s: Store, j: nat)
    requires Inv(s) && WellFormed(s, RemoveIndexRecord(j)) && RemovedIndexRecord(s, j).Accepted?
    ensures Inv(RemovedIndexRecord(s, j).store)
  {
    var s' := RemovedIndexRecord(s, j).store;
    if s' != s {
      var key := s.jobs[j].IndexKey();
      RemovalKeeps(s, key);
      var mid := s.(indexes := s.indexes - {key});
      assert JobOk(s.tables, j, s.jobs[j]);
      RefreshKeeps(mid, j, s'.jobs[j]);
    }
  }

  lemma ReclaimKeeps(s: Store, table: TableId, name: string)
    requires Inv(s)
    ensures !ReclaimedIndex(s, table, name).Panicked?
    ensures ReclaimedIndex(s, table, name).Accepted? ==> Inv(ReclaimedIndex(s, table, name).store)
  {
    if (table, name) in s.indexes {
      var r := s.indexes[(table, name)];
      assert RecordOk(s.jobs, s.version, (table, name), r);
      if r.phase.Dropping? {
        assert JobOk(s.tables, r.jobId, s.jobs[r.jobId]);
        RemovalKeeps(s, (table, name));
      }
    }
  }

  // -------------------------------------------------------------- whole runs

  /** No well-formed command reaches a panic, and every accepted one keeps the invariant. */
  lemma DispatchKeeps(s: Store, c: DdlCommand, ts: Timestamp)
    requires Inv(s) && StampsPast(s) && WellFormed(s, c)
    ensures !Dispatch(s, c, ts).Panicked?
    ensures Dispatch(s, c, ts).Accepted? ==> Inv(Dispatch(s, c, ts).store)
  {
    match c
    case RegisterTable(a) => if RegisteredTable(s, a).Accepted? { RegisterKeeps(s, a); }
    case SubmitJob(job) => if SubmittedJob(s, job, ts).Accepted? { SubmitKeeps(s, job, ts); }
    case AdvancePhase(j, to, pin, e) => if AdvancedPhase(s, j, to, pin, e, ts).Accepted? { AdvanceKeeps(s, j, to, pin, e, ts); }
    case UpdateTabletProgress(j, p) => if UpdatedTabletProgress(s, j, p, ts).Accepted? { UpdateKeeps(s, j, p, ts); }
    case ForgetTabletProgress(j, t) => if ForgottenTabletProgress(s, j, t, ts).Accepted? { ForgetKeeps(s, j, t, ts); }
    case ReportTabletValidation(j, r) => if ReportedTabletValidation(s, j, r, ts).Accepted? { ReportKeeps(s, j, r, ts); }
    case PublishJob(j, at) => PublishKeeps(s, j, at, ts);
    case SetJobState(j, state, at, error, e) => if StateSet(s, j, state, at, error, e).Accepted? { SetStateKeeps(s, j, state, at, error, e); }
    case RemoveIndexRecord(j) => if RemovedIndexRecord(s, j).Accepted? { RemoveKeeps(s, j); }
    case ReclaimIndex(table, name) => ReclaimKeeps(s, table, name);
    case PinReader(reader, v) =>
    case ReleaseReader(reader) =>
  }
}
