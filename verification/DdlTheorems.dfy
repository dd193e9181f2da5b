/** Theorems over whole runs of the DDL store: planner views, publication evidence, schema versions. */
module DdlTheorems {
  import opened Common
  import opened DdlTypes
  import opened DdlStoreSpec
  import opened DdlInvariant
  import opened DdlEffects
  import opened DdlHistory

  // ---------------------------------------------------------- planner views

  /** The index names, with their definitions, a planner at metadata version `v` may use. */
  ghost function PlannerView(s: Store, table: TableId, v: MetadataVersion): map<string, Json> {
    map k | k in s.indexes && k.0 == table && s.indexes[k].VisibleAt(v) :: k.1 := s.indexes[k].definition
  }

  /** What a planner at `v` sees under one name. */
  function Seen(r: Option<DdlIndexRecord>, v: MetadataVersion): Option<Json> {
    if r.Some? && r.value.VisibleAt(v) then Some(r.value.definition) else None
  }

  lemma ViewBySeen(s: Store, s': Store, table: TableId, v: MetadataVersion)
    requires forall n :: Seen(Get(s.indexes, (table, n)), v) == Seen(Get(s'.indexes, (table, n)), v)
    ensures PlannerView(s, table, v) == PlannerView(s', table, v)
  {
  }

  /** One edge of the life cycle is invisible at every version a reader pins. */
  lemma KeyStepSeen(pins: map<nat, MetadataVersion>, version: MetadataVersion, before: Option<DdlIndexRecord>, after: Option<DdlIndexRecord>, reader: nat)
    requires KeyStep(pins, version, before, after)
    requires 0 < version && (before.Some? ==> StampsOk(version - 1, before.value))
    requires after.Some? ==> StampsOk(version, after.value)
    requires reader in pins && pins[reader] < version
    ensures Seen(before, pins[reader]) == Seen(after, pins[reader])
  {
  }

  lemma PinnedViewStep(s: Store, call: Call, next: Store, reader: nat, table: TableId)
    requires Inv(s) && Steps(s, call, next)
    requires reader in s.pins && s.pins[reader] <= s.version
    ensures PlannerView(next, table, s.pins[reader]) == PlannerView(s, table, s.pins[reader])
  {
    var v := s.pins[reader];
    StepKeeps(s, call);
    VersionTicks(s, call.command, call.id, call.ts);
    forall n ensures Seen(Get(next.indexes, (table, n)), v) == Seen(Get(s.indexes, (table, n)), v) {
      var k := (table, n);
      ApplyKeyStep(s, call.command, call.id, call.ts, k, Get(next.indexes, k));
      if k in s.indexes {
        assert RecordOk(s.jobs, s.version, k, s.indexes[k]);
      }
      if k in next.indexes {
        assert RecordOk(next.jobs, next.version, k, next.indexes[k]);
      }
      KeyStepSeen(s.pins, s.version + 1, Get(s.indexes, k), Get(next.indexes, k), reader);
    }
    ViewBySeen(next, s, table, v);
  }

  /** Pinned planner views are stable: while a reader holds its pin at `v`, the names and definitions
      visible at `v` never change, whatever is published, dropped, reclaimed or added again. */
  lemma {:induction false} PinnedViewStable(states: seq<Store>, calls: seq<Call>, reader: nat, v: MetadataVersion, table: TableId)
    requires IsRun(states, calls) && v <= states[0].version
    requires forall i :: 0 <= i < |calls| ==> reader in states[i].pins && states[i].pins[reader] == v
    ensures PlannerView(states[|calls|], table, v) == PlannerView(states[0], table, v)
    decreases |calls|
  {
    if calls != [] {
      var n := |calls| - 1;
      PinnedViewStable(states[..n + 1], calls[..n], reader, v, table);
      RunKeeps(states, calls, n);
      VersionsRise(states, calls, n);
      assert Steps(states[n], calls[n], states[n + 1]);
      PinnedViewStep(states[n], calls[n], states[n + 1], reader, table);
    }
  }

  lemma {:induction false} VersionsRise(states: seq<Store>, calls: seq<Call>, i: nat)
    requires IsRun(states, calls) && i < |states|
    ensures states[i].version == states[0].version + i
  {
    if i > 0 {
      VersionsRise(states, calls, i - 1);
      assert Steps(states[i - 1], calls[i - 1], states[i]);
      VersionTicks(states[i - 1], calls[i - 1].command, calls[i - 1].id, calls[i - 1].ts);
    }
  }

  /** Publication is atomic: the name is invisible below the command's version and visible from it on. */
  lemma PublishFlipsOnce(s: Store, j: nat, at: Timestamp, ts: Timestamp, v: MetadataVersion)
    requires Inv(s) && j in s.jobs && s.jobs[j].kind.KindAddIndex? && s.jobs[j].phase.Validating?
    requires PublishedJob(s, j, at, ts).Accepted?
    ensures
      var s' := PublishedJob(s, j, at, ts).store;
      && s.jobs[j].definition.AddIndex?
      && Seen(Get(s.indexes, s.jobs[j].IndexKey()), v) == None
      && Seen(Get(s'.indexes, s.jobs[j].IndexKey()), v) ==
           if s.version <= v then Some(s.jobs[j].definition.spec) else None
  {
    InvJobView(s, j);
  }

  /** Why a stable pin must not lie above the version: a pin there is accepted, and the next
      publication changes the view at it. */
  lemma PinAboveVersionSeesChange(s: Store, reader: nat, v: MetadataVersion, j: nat, at: Timestamp, ts: Timestamp)
    requires Inv(s) && reader != 0 && reader !in s.pins && Ticked(s).version < v
    requires j in s.jobs && s.jobs[j].kind.KindAddIndex? && s.jobs[j].phase.Validating?
    requires PublishedJob(Ticked(Ticked(s).(pins := s.pins[reader := v])), j, at, ts).Accepted?
    ensures PinnedReader(Ticked(s), reader, v) == Accepted(Ticked(s).(pins := s.pins[reader := v]))
    ensures
      var pinned := Ticked(s).(pins := s.pins[reader := v]);
      PlannerView(PublishedJob(Ticked(pinned), j, at, ts).store, s.jobs[j].tableId, v) != PlannerView(pinned, s.jobs[j].tableId, v)
  {
    var pinned := Ticked(s).(pins := s.pins[reader := v]);
    TickKeeps(s);
    assert Inv(pinned);
    TickKeeps(pinned);
    PublishFlipsOnce(Ticked(pinned), j, at, ts, v);
    var key := s.jobs[j].IndexKey();
    var after := PublishedJob(Ticked(pinned), j, at, ts).store;
    assert key.1 in PlannerView(after, key.0, v) && key.1 !in PlannerView(pinned, key.0, v);
  }

  /** Unwinding without checking ownership: an accepted RemoveIndexRecord keeps the view at `v`
      exactly when the record it removes is not one that is Dropping and still visible at `v`. */
  lemma UnwindKeepsViewIff(s: Store, j: nat, v: MetadataVersion)
    requires Inv(s) && j in s.jobs && s.jobs[j].HasIndex() && RemovedIndexRecord(s, j).Accepted?
    ensures
      var key := s.jobs[j].IndexKey();
      var s' := RemovedIndexRecord(s, j).store;
      PlannerView(s', key.0, v) == PlannerView(s, key.0, v) <==>
      !(key in s.indexes && s.indexes[key].phase.Dropping? && s.indexes[key].VisibleAt(v))
  {
    var key := s.jobs[j].IndexKey();
    var s' := RemovedIndexRecord(s, j).store;
    if key in s.indexes {
      assert RecordOk(s.jobs, s.version, key, s.indexes[key]);
      if s.indexes[key].phase.Dropping? && s.indexes[key].VisibleAt(v) {
        assert key.1 in PlannerView(s, key.0, v) && key.1 !in PlannerView(s', key.0, v);
      } else {
        ViewBySeen(s, s', key.0, v);
      }
    }
  }

  // --------------------------------------------------------------- evidence

  /** A published or retiring index rests on a succeeded job all of whose tablets validated. */
  lemma PublishedEvidence(s: Store, k: (TableId, string))
    requires Inv(s) && k in s.indexes && (s.indexes[k].phase.Public? || s.indexes[k].phase.Dropping?)
    ensures s.indexes[k].jobId in s.jobs
    ensures
      var job := s.jobs[s.indexes[k].jobId];
      && job.state.Succeeded? && job.phase.Public? && job.tableId == k.0
      && job.definition == AddIndex(k.1, s.indexes[k].definition)
      && job.tabletProgress != map[]
      && forall t :: t in job.tabletProgress ==>
           job.tabletProgress[t].stage.Validated? && job.tabletProgress[t].validation.Some? &&
           job.tabletProgress[t].validation.value.Passed()
  {
    assert RecordOk(s.jobs, s.version, k, s.indexes[k]);
    assert JobOk(s.tables, s.indexes[k].jobId, s.jobs[s.indexes[k].jobId]);
  }

  lemma JobStepOf(s: Store, call: Call, next: Store, j: nat)
    requires Inv(s) && Steps(s, call, next) && j in s.jobs
    ensures j in next.jobs && JobStep(s.jobs[j], next.jobs[j])
  {
    assert JobOk(s.tables, j, s.jobs[j]);
    ApplyJobStep(s, call.command, call.id, call.ts, j);
  }

  /** Consecutive states in which every job of the first takes one step at most. */
  ghost predicate JobsStep(s: Store, next: Store) {
    forall j :: j in s.jobs ==> j in next.jobs && JobStep(s.jobs[j], next.jobs[j])
  }

  lemma RunJobsStep(states: seq<Store>, calls: seq<Call>)
    requires IsRun(states, calls)
    ensures forall i :: 0 <= i < |states| - 1 ==> JobsStep(states[i], states[i + 1])
  {
    forall i | 0 <= i < |states| - 1 ensures JobsStep(states[i], states[i + 1]) {
      RunKeeps(states, calls, i);
      forall j | j in states[i].jobs ensures j in states[i + 1].jobs && JobStep(states[i].jobs[j], states[i + 1].jobs[j]) {
        JobStepOf(states[i], calls[i], states[i + 1], j);
      }
    }
  }

  lemma {:induction false} PublishedJobFrozen(states: seq<Store>, i: nat, k: nat, j: nat)
    requires forall i :: 0 <= i < |states| - 1 ==> JobsStep(states[i], states[i + 1])
    requires i <= k < |states| && j in states[i].jobs && states[i].jobs[j].kind != KindDropIndex && states[i].jobs[j].phase.Public?
    ensures j in states[k].jobs && states[k].jobs[j] == states[i].jobs[j]
    decreases k
  {
    if i < k {
      PublishedJobFrozen(states, i, k - 1, j);
      assert JobsStep(states[k - 1], states[k]);
    }
  }

  /** Once published, a job's record never changes again, evidence included. */
  lemma EvidenceIsPermanent(states: seq<Store>, calls: seq<Call>, i: nat, k: nat, j: nat)
    requires IsRun(states, calls) && i <= k < |states|
    requires j in states[i].jobs && states[i].jobs[j].kind != KindDropIndex && states[i].jobs[j].phase.Public?
    ensures j in states[k].jobs && states[k].jobs[j] == states[i].jobs[j]
  {
    RunJobsStep(states, calls);
    PublishedJobFrozen(states, i, k, j);
  }

  /** Replaying the publication is accepted and changes no job, index, table or pin. */
  lemma PublishReplay(s: Store, j: nat, at: Timestamp, id: Option<nat>, ts: Timestamp)
    requires Inv(s) && j in s.jobs && s.jobs[j].kind != KindDropIndex && s.jobs[j].phase.Public?
    ensures Apply(s, PublishJob(j, at), id, ts) == Applied(Ticked(s), Ok)
  {
  }

  /** A Public index stays Public, unchanged, or becomes Dropping with everything else unchanged. */
  lemma PublicStaysOrDrops(s: Store, call: Call, next: Store, k: (TableId, string))
    requires Inv(s) && Steps(s, call, next) && k in s.indexes && s.indexes[k].phase.Public?
    ensures k in next.indexes
    ensures next.indexes[k] == s.indexes[k] || Retires(s.version + 1, s.indexes[k], next.indexes[k])
  {
    ApplyKeyStep(s, call.command, call.id, call.ts, k, Get(next.indexes, k));
  }

  // ---------------------------------------------------------------- schemas

  /** Whatever is applied, a table's schema version never decreases, and names one document. */
  lemma {:induction false} SchemaVersionNamesOneSchema(states: seq<Store>, calls: seq<Call>, i: nat, k: nat, t: TableId)
    requires IsLog(states, calls) && i <= k < |states| && t in states[i].tables
    ensures t in states[k].tables && AnchorStep(states[i].tables[t], states[k].tables[t])
    decreases k
  {
    if i < k {
      SchemaVersionNamesOneSchema(states, calls, i, k - 1, t);
      assert Applies(states[k - 1], calls[k - 1], states[k]);
      var c := calls[k - 1];
      ApplyAnchorStep(states[k - 1], c.command, c.id, c.ts, t);
    }
  }

  lemma {:induction false} JobIdentityKept(states: seq<Store>, i: nat, k: nat, j: nat)
    requires forall i :: 0 <= i < |states| - 1 ==> JobsStep(states[i], states[i + 1])
    requires i <= k < |states| && j in states[i].jobs
    ensures j in states[k].jobs
    ensures states[k].jobs[j].tableId == states[i].jobs[j].tableId
    ensures states[k].jobs[j].sourceSchemaVersion == states[i].jobs[j].sourceSchemaVersion
    decreases k
  {
    if i < k {
      JobIdentityKept(states, i, k - 1, j);
      assert JobsStep(states[k - 1], states[k]);
    }
  }

  lemma SubmittedUnder(s: Store, job: DdlJobRecord, id: Option<nat>, ts: Timestamp)
    requires job.jobId !in s.jobs && Apply(s, SubmitJob(job), id, ts).Applied? && Apply(s, SubmitJob(job), id, ts).result.Ok?
    ensures
      var s' := Apply(s, SubmitJob(job), id, ts).store;
      && job.jobId in s'.jobs && s'.jobs[job.jobId].tableId == job.tableId && job.tableId in s.tables
      && s'.tables == s.tables && s'.jobs[job.jobId].sourceSchemaVersion == s.tables[job.tableId].schemaVersion
  {
  }

  lemma PublishedUnder(s: Store, j: nat, at: Timestamp, id: Option<nat>, ts: Timestamp)
    requires j in s.jobs && !s.jobs[j].state.Succeeded? && Apply(s, PublishJob(j, at), id, ts).Applied?
    requires Apply(s, PublishJob(j, at), id, ts).result.Ok?
    ensures s.jobs[j].tableId in s.tables
    ensures s.tables[s.jobs[j].tableId].schemaVersion == s.jobs[j].sourceSchemaVersion
  {
  }

  ghost predicate Accepts(s: Store, call: Call) {
    && Apply(s, call.command, call.id, call.ts).Applied?
    && Apply(s, call.command, call.id, call.ts).result.Ok?
  }

  /** A job submitted by call `i` and published by call `k` ran under one schema all the way. */
  lemma PublishedUnderSubmittedSchema(states: seq<Store>, calls: seq<Call>, i: nat, k: nat, m: nat)
    requires IsRun(states, calls) && i < k < |calls| && i <= m <= k
    requires calls[i].command.SubmitJob? && calls[k].command.PublishJob?
    requires calls[k].command.jobId == calls[i].command.job.jobId && calls[i].command.job.jobId !in states[i].jobs
    requires Accepts(states[i], calls[i]) && Accepts(states[k], calls[k])
    requires calls[k].command.jobId in states[k].jobs && !states[k].jobs[calls[k].command.jobId].state.Succeeded?
    ensures
      var t := calls[i].command.job.tableId;
      && t in states[i].tables && t in states[m].tables
      && states[m].tables[t].schemaVersion == states[i].tables[t].schemaVersion
      && states[m].tables[t].schema == states[i].tables[t].schema
  {
    var job := calls[i].command.job;
    var j, t := job.jobId, job.tableId;
    assert Steps(states[i], calls[i], states[i + 1]) && Steps(states[k], calls[k], states[k + 1]);
    SubmittedUnder(states[i], job, calls[i].id, calls[i].ts);
    RunJobsStep(states, calls);
    JobIdentityKept(states, i + 1, k, j);
    PublishedUnder(states[k], j, calls[k].command.publishedAt, calls[k].id, calls[k].ts);
    RunIsLog(states, calls);
    SchemaVersionNamesOneSchema(states, calls, i, m, t);
    SchemaVersionNamesOneSchema(states, calls, m, k, t);
  }

  // ----------------------------------------------------------- pins, progress

  /** A pin that is not released never moves back. */
  lemma PinsOnlyRise(s: Store, call: Call, next: Store, reader: nat)
    requires Applies(s, call, next) && reader in s.pins && reader in next.pins
    ensures s.pins[reader] <= next.pins[reader]
  {
  }

  /** A tablet's recorded progress only rises, unless it is forgotten. */
  predicate ProgressRises(p: TabletDdlProgress, p': TabletDdlProgress) {
    && p'.stage.Rank() >= p.stage.Rank()
    && (p'.stage == p.stage ==> p'.rowsScanned >= p.rowsScanned)
  }

  predicate JobProgressRises(job: DdlJobRecord, job': DdlJobRecord, t: TabletId) {
    t in job.tabletProgress ==> t in job'.tabletProgress && ProgressRises(job.tabletProgress[t], job'.tabletProgress[t])
  }

  lemma UpdateRises(s: Store, i: nat, p: TabletDdlProgress, ts: Timestamp, j: nat, t: TabletId)
    requires j in s.jobs && UpdatedTabletProgress(s, i, p, ts).Accepted?
    ensures j in UpdatedTabletProgress(s, i, p, ts).store.jobs
    ensures JobProgressRises(s.jobs[j], UpdatedTabletProgress(s, i, p, ts).store.jobs[j], t)
  {
  }

  lemma ReportRises(s: Store, i: nat, r: TabletValidationReport, ts: Timestamp, j: nat, t: TabletId)
    requires j in s.jobs && ReportedTabletValidation(s, i, r, ts).Accepted?
    ensures j in ReportedTabletValidation(s, i, r, ts).store.jobs
    ensures JobProgressRises(s.jobs[j], ReportedTabletValidation(s, i, r, ts).store.jobs[j], t)
  {
  }

  lemma ForgetSpares(s: Store, i: nat, gone: TabletId, ts: Timestamp, j: nat, t: TabletId)
    requires j in s.jobs && ForgottenTabletProgress(s, i, gone, ts).Accepted? && (i != j || gone != t)
    ensures j in ForgottenTabletProgress(s, i, gone, ts).store.jobs
    ensures JobProgressRises(s.jobs[j], ForgottenTabletProgress(s, i, gone, ts).store.jobs[j], t)
  {
  }

  lemma OtherKeepsProgress(s: Store, c: DdlCommand, ts: Timestamp, j: nat)
    requires !c.UpdateTabletProgress? && !c.ReportTabletValidation? && !c.ForgetTabletProgress?
    requires j in s.jobs && Dispatch(s, c, ts).Accepted?
    ensures j in Dispatch(s, c, ts).store.jobs && Dispatch(s, c, ts).store.jobs[j].tabletProgress == s.jobs[j].tabletProgress
  {
  }

  lemma DispatchProgressRises(s: Store, c: DdlCommand, ts: Timestamp, j: nat, t: TabletId)
    requires j in s.jobs && Dispatch(s, c, ts).Accepted? && c != ForgetTabletProgress(j, t)
    ensures j in Dispatch(s, c, ts).store.jobs && JobProgressRises(s.jobs[j], Dispatch(s, c, ts).store.jobs[j], t)
  {
    match c
    case UpdateTabletProgress(i, p) => UpdateRises(s, i, p, ts, j, t);
    case ReportTabletValidation(i, r) => ReportRises(s, i, r, ts, j, t);
    case ForgetTabletProgress(i, gone) => ForgetSpares(s, i, gone, ts, j, t);
    case _ => OtherKeepsProgress(s, c, ts, j);
  }

  lemma ProgressNeverRegresses(s: Store, call: Call, next: Store, j: nat, t: TabletId)
    requires Applies(s, call, next) && j in s.jobs && call.command != ForgetTabletProgress(j, t)
    ensures j in next.jobs && JobProgressRises(s.jobs[j], next.jobs[j], t)
  {
    if Dispatch(Ticked(s), call.command, call.ts).Accepted? {
      DispatchProgressRises(Ticked(s), call.command, call.ts, j, t);
    }
  }
}
