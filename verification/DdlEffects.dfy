/** What one command can do to one index record, one job and one table anchor. */
module DdlEffects {
  import opened Common
  import opened DdlTypes
  import opened DdlStoreSpec
  import opened DdlInvariant

  function Get<K, V>(m: map<K, V>, k: K): Option<V> {
    if k in m then Some(m[k]) else None
  }

  /** The life of an index name: absent, hidden, Public, Dropping, absent again. `version` is the
      command's own metadata version, `pins` the reader pins it finds. */
  ghost predicate KeyStep(pins: map<nat, MetadataVersion>, version: MetadataVersion, before: Option<DdlIndexRecord>, after: Option<DdlIndexRecord>) {
    match (before, after)
    case (None, None) => true
    case (None, Some(r')) => r'.phase.IsHidden()
    case (Some(r), None) => r.phase.IsHidden() || (r.phase.Dropping? && DrainedPast(pins, r))
    case (Some(r), Some(r')) =>
      r' == r || (r.phase.IsHidden() && Promotes(version, r, r')) || (r.phase.Public? && Retires(version, r, r'))
  }

  predicate Promotes(version: MetadataVersion, r: DdlIndexRecord, r': DdlIndexRecord) {
    && r'.definition == r.definition && r'.jobId == r.jobId
    && (r'.phase.IsHidden() || (r'.phase.Public? && r'.publicationVersion == Some(version)))
  }

  predicate Retires(version: MetadataVersion, r: DdlIndexRecord, r': DdlIndexRecord) {
    r' == r.(phase := Dropping, droppingSince := Some(version), metadataVersion := version)
  }

  ghost predicate DrainedPast(pins: map<nat, MetadataVersion>, r: DdlIndexRecord) {
    r.droppingSince.Some? && forall q :: q in pins ==> r.droppingSince.value <= pins[q]
  }

  /** What the invariant says about one job and the record its definition names. */
  ghost predicate JobView(s: Store, j: nat) {
    && j in s.jobs && JobOk(s.tables, j, s.jobs[j]) && LinkOk(s.indexes, s.jobs[j])
    && (s.jobs[j].HasIndex() && s.jobs[j].IndexKey() in s.indexes ==>
          RecordOk(s.jobs, s.version, s.jobs[j].IndexKey(), s.indexes[s.jobs[j].IndexKey()]))
  }

  lemma InvJobView(s: Store, j: nat)
    requires Inv(s) && j in s.jobs
    ensures JobView(s, j)
  {
  }

  lemma AdvanceKeyStep(s: Store, j: nat, to: DdlPhase, pin: Option<Timestamp>, e: Option<MetadataVersion>, ts: Timestamp,
                       k: (TableId, string), before: Option<DdlIndexRecord>, after: Option<DdlIndexRecord>)
    requires JobView(s, j) && AdvancedPhase(s, j, to, pin, e, ts).Accepted?
    requires before == Get(s.indexes, k) && after == Get(AdvancedPhase(s, j, to, pin, e, ts).store.indexes, k)
    ensures KeyStep(s.pins, s.version, before, after)
  {
  }

  lemma PublishKeyStep(s: Store, j: nat, at: Timestamp, ts: Timestamp, k: (TableId, string), before: Option<DdlIndexRecord>, after: Option<DdlIndexRecord>)
    requires JobView(s, j) && PublishedJob(s, j, at, ts).Accepted?
    requires before == Get(s.indexes, k) && after == Get(PublishedJob(s, j, at, ts).store.indexes, k)
    ensures KeyStep(s.pins, s.version, before, after)
  {
  }

  lemma RemoveKeyStep(s: Store, j: nat, k: (TableId, string), before: Option<DdlIndexRecord>, after: Option<DdlIndexRecord>)
    requires JobView(s, j) && WellFormed(s, RemoveIndexRecord(j)) && RemovedIndexRecord(s, j).Accepted?
    requires before == Get(s.indexes, k) && after == Get(RemovedIndexRecord(s, j).store.indexes, k)
    ensures KeyStep(s.pins, s.version, before, after)
  {
  }

  lemma ReclaimKeyStep(s: Store, table: TableId, name: string, k: (TableId, string), before: Option<DdlIndexRecord>, after: Option<DdlIndexRecord>)
    requires (table, name) in s.indexes ==> RecordOk(s.jobs, s.version, (table, name), s.indexes[(table, name)])
    requires ReclaimedIndex(s, table, name).Accepted?
    requires before == Get(s.indexes, k) && after == Get(ReclaimedIndex(s, table, name).store.indexes, k)
    ensures KeyStep(s.pins, s.version, before, after)
  {
  }

  lemma SubmitKeyStep(s: Store, job: DdlJobRecord, ts: Timestamp, k: (TableId, string), before: Option<DdlIndexRecord>, after: Option<DdlIndexRecord>)
    requires SubmittedJob(s, job, ts).Accepted?
    requires before == Get(s.indexes, k) && after == Get(SubmittedJob(s, job, ts).store.indexes, k)
    ensures KeyStep(s.pins, s.version, before, after)
  {
  }

  lemma OtherKeepsIndexes(s: Store, c: DdlCommand, ts: Timestamp)
    requires !c.SubmitJob? && !c.AdvancePhase? && !c.PublishJob? && !c.RemoveIndexRecord? && !c.ReclaimIndex?
    requires Dispatch(s, c, ts).Accepted?
    ensures Dispatch(s, c, ts).store.indexes == s.indexes
  {
  }

  lemma DispatchKeyStep(s: Store, c: DdlCommand, ts: Timestamp, k: (TableId, string), before: Option<DdlIndexRecord>, after: Option<DdlIndexRecord>)
    requires Inv(s) && WellFormed(s, c) && Dispatch(s, c, ts).Accepted?
    requires before == Get(s.indexes, k) && after == Get(Dispatch(s, c, ts).store.indexes, k)
    ensures KeyStep(s.pins, s.version, before, after)
  {
    match c
    case SubmitJob(job) => SubmitKeyStep(s, job, ts, k, before, after);
    case AdvancePhase(j, to, pin, e) => InvJobView(s, j); AdvanceKeyStep(s, j, to, pin, e, ts, k, before, after);
    case PublishJob(j, at) => InvJobView(s, j); PublishKeyStep(s, j, at, ts, k, before, after);
    case RemoveIndexRecord(j) => InvJobView(s, j); RemoveKeyStep(s, j, k, before, after);
    case ReclaimIndex(table, name) => ReclaimKeyStep(s, table, name, k, before, after);
    case _ => OtherKeepsIndexes(s, c, ts);
  }

  lemma TickedReady(s: Store, c: DdlCommand)
    requires Inv(s) && WellFormed(s, c)
    ensures Inv(Ticked(s)) && WellFormed(Ticked(s), c)
  {
    TickKeeps(s);
  }

  /** A handler's store is the result, or every index stays as it was. */
  lemma AppliedIndexes(s: Store, c: DdlCommand, id: Option<nat>, ts: Timestamp, indexes: map<(TableId, string), DdlIndexRecord>)
    requires Apply(s, c, id, ts).Applied? && indexes == Apply(s, c, id, ts).store.indexes
    ensures indexes == s.indexes || (Dispatch(Ticked(s), c, ts).Accepted? && indexes == Dispatch(Ticked(s), c, ts).store.indexes)
  {
  }

  lemma TickedKeyStep(s: Store, c: DdlCommand, ts: Timestamp, k: (TableId, string), pins: map<nat, MetadataVersion>, v: MetadataVersion,
                      before: Option<DdlIndexRecord>, after: Option<DdlIndexRecord>)
    requires Inv(s) && WellFormed(s, c) && Dispatch(Ticked(s), c, ts).Accepted? && pins == s.pins && v == s.version + 1
    requires before == Get(s.indexes, k) && after == Get(Dispatch(Ticked(s), c, ts).store.indexes, k)
    ensures KeyStep(pins, v, before, after)
  {
    TickedReady(s, c);
    DispatchKeyStep(Ticked(s), c, ts, k, before, after);
  }

  /** Every applied command moves every index name one edge at most along its life cycle. */
  lemma ApplyKeyStep(s: Store, c: DdlCommand, id: Option<nat>, ts: Timestamp, k: (TableId, string), after: Option<DdlIndexRecord>)
    requires Inv(s) && WellFormed(s, c) && Apply(s, c, id, ts).Applied?
    requires after == Get(Apply(s, c, id, ts).store.indexes, k)
    ensures KeyStep(s.pins, s.version + 1, Get(s.indexes, k), after)
  {
    AppliedIndexes(s, c, id, ts, Apply(s, c, id, ts).store.indexes);
    if after != Get(s.indexes, k) {
      TickedKeyStep(s, c, ts, k, s.pins, s.version + 1, Get(s.indexes, k), after);
    }
  }

  // ------------------------------------------------------------------- jobs

  /** Identity fields never change; a published addition never changes at all. */
  predicate JobStep(job: DdlJobRecord, job': DdlJobRecord) {
    && job'.jobId == job.jobId && job'.kind == job.kind && job'.definition == job.definition
    && job'.tableId == job.tableId && job'.sourceSchemaVersion == job.sourceSchemaVersion
    && (job.state.IsTerminal() ==> job'.state == job.state && job'.phase == job.phase)
    && (job.state != job'.state ==> job.state.CanTransition(job'.state))
    && (job.phase != job'.phase ==> job.phase.CanTransition(job'.phase))
    && (job.kind != KindDropIndex && job.phase.Public? ==> job' == job)
  }

  lemma AdvanceJobStep(s: Store, i: nat, to: DdlPhase, pin: Option<Timestamp>, e: Option<MetadataVersion>, ts: Timestamp, j: nat)
    requires j in s.jobs && JobOk(s.tables, j, s.jobs[j]) && AdvancedPhase(s, i, to, pin, e, ts).Accepted?
    ensures var s' := AdvancedPhase(s, i, to, pin, e, ts).store; j in s'.jobs && JobStep(s.jobs[j], s'.jobs[j])
  {
  }

  lemma PublishJobStep(s: Store, i: nat, at: Timestamp, ts: Timestamp, j: nat)
    requires j in s.jobs && JobOk(s.tables, j, s.jobs[j]) && PublishedJob(s, i, at, ts).Accepted?
    ensures var s' := PublishedJob(s, i, at, ts).store; j in s'.jobs && JobStep(s.jobs[j], s'.jobs[j])
  {
  }

  lemma StateJobStep(s: Store, i: nat, state: JobState, at: Timestamp, error: Option<string>, e: Option<MetadataVersion>, j: nat)
    requires j in s.jobs && JobOk(s.tables, j, s.jobs[j]) && StateSet(s, i, state, at, error, e).Accepted?
    ensures var s' := StateSet(s, i, state, at, error, e).store; j in s'.jobs && JobStep(s.jobs[j], s'.jobs[j])
  {
    var s' := StateSet(s, i, state, at, error, e).store;
    assert s'.jobs[j] == s.jobs[j] || (i == j && s'.jobs[j].state == state);
  }

  lemma ProgressJobStep(s: Store, c: DdlCommand, ts: Timestamp, j: nat)
    requires c.UpdateTabletProgress? || c.ForgetTabletProgress? || c.ReportTabletValidation?
    requires j in s.jobs && Dispatch(s, c, ts).Accepted?
    ensures var s' := Dispatch(s, c, ts).store; j in s'.jobs && JobStep(s.jobs[j], s'.jobs[j])
  {
  }

  lemma RemoveJobStep(s: Store, i: nat, j: nat)
    requires j in s.jobs && JobOk(s.tables, j, s.jobs[j]) && RemovedIndexRecord(s, i).Accepted?
    ensures var s' := RemovedIndexRecord(s, i).store; j in s'.jobs && JobStep(s.jobs[j], s'.jobs[j])
  {
  }

  lemma OtherKeepsJob(s: Store, c: DdlCommand, ts: Timestamp, j: nat)
    requires c.RegisterTable? || c.SubmitJob? || c.ReclaimIndex? || c.PinReader? || c.ReleaseReader?
    requires j in s.jobs && Dispatch(s, c, ts).Accepted?
    ensures j in Dispatch(s, c, ts).store.jobs && Dispatch(s, c, ts).store.jobs[j] == s.jobs[j]
  {
  }

  lemma DispatchJobStep(s: Store, c: DdlCommand, ts: Timestamp, j: nat)
    requires j in s.jobs && JobOk(s.tables, j, s.jobs[j]) && Dispatch(s, c, ts).Accepted?
    ensures j in Dispatch(s, c, ts).store.jobs && JobStep(s.jobs[j], Dispatch(s, c, ts).store.jobs[j])
  {
    match c
    case AdvancePhase(i, to, pin, e) => AdvanceJobStep(s, i, to, pin, e, ts, j);
    case PublishJob(i, at) => PublishJobStep(s, i, at, ts, j);
    case SetJobState(i, state, at, error, e) => StateJobStep(s, i, state, at, error, e, j);
    case RemoveIndexRecord(i) => RemoveJobStep(s, i, j);
    case UpdateTabletProgress(_, _) => ProgressJobStep(s, c, ts, j);
    case ForgetTabletProgress(_, _) => ProgressJobStep(s, c, ts, j);
    case ReportTabletValidation(_, _) => ProgressJobStep(s, c, ts, j);
    case _ => OtherKeepsJob(s, c, ts, j);
  }

  lemma ApplyJobStep(s: Store, c: DdlCommand, id: Option<nat>, ts: Timestamp, j: nat)
    requires j in s.jobs && JobOk(s.tables, j, s.jobs[j]) && Apply(s, c, id, ts).Applied?
    ensures j in Apply(s, c, id, ts).store.jobs && JobStep(s.jobs[j], Apply(s, c, id, ts).store.jobs[j])
  {
    if Dispatch(Ticked(s), c, ts).Accepted? {
      DispatchJobStep(Ticked(s), c, ts, j);
    }
  }

  // ----------------------------------------------------------------- tables

  /** Schema versions only rise, and a version names one document. */
  predicate AnchorStep(a: TableAnchor, a': TableAnchor) {
    && a.schemaVersion <= a'.schemaVersion
    && (a.schemaVersion == a'.schemaVersion ==> a'.schema == a.schema && a'.databaseId == a.databaseId)
  }

  lemma DispatchAnchorStep(s: Store, c: DdlCommand, ts: Timestamp, t: TableId)
    requires Dispatch(s, c, ts).Accepted? && t in s.tables
    ensures t in Dispatch(s, c, ts).store.tables && AnchorStep(s.tables[t], Dispatch(s, c, ts).store.tables[t])
  {
    match c
    case RegisterTable(a) =>
    case PublishJob(j, at) =>
    case _ => assert Dispatch(s, c, ts).store.tables == s.tables;
  }

  lemma ApplyAnchorStep(s: Store, c: DdlCommand, id: Option<nat>, ts: Timestamp, t: TableId)
    requires Apply(s, c, id, ts).Applied? && t in s.tables
    ensures t in Apply(s, c, id, ts).store.tables && AnchorStep(s.tables[t], Apply(s, c, id, ts).store.tables[t])
  {
    if Dispatch(Ticked(s), c, ts).Accepted? {
      DispatchAnchorStep(Ticked(s), c, ts, t);
    }
  }
}
