/** What each command the DDL driver issues does, as the driver relies on it. */
module DriverEffects {
  import opened Common
  import opened DdlTypes
  import opened DdlStoreSpec
  import opened DdlInvariant

  predicate SameIdentity(job: DdlJobRecord, job': DdlJobRecord) {
    && job'.jobId == job.jobId && job'.tableId == job.tableId && job'.kind == job.kind
    && job'.definition == job.definition && job'.sourceSchemaVersion == job.sourceSchemaVersion
  }

  /** Being unwound, or unwound: a state no job comes back from. */
  predicate Doomed(state: JobState) { state.Cancelling? || state.RollingBack? || state.Failed? }

  /** Driving job `j` touches that job, the index record its definition names, and, when it succeeds
      in altering the schema, its table: nothing else. */
  ghost predicate DrivenBy(s: Store, s': Store, j: nat) {
    && s'.jobs.Keys == s.jobs.Keys && s'.pins == s.pins
    && (forall i :: i in s.jobs && i != j ==> s'.jobs[i] == s.jobs[i])
    && (j in s.jobs ==> SameIdentity(s.jobs[j], s'.jobs[j]) && (Doomed(s.jobs[j].state) ==> Doomed(s'.jobs[j].state)))
    && (j in s.jobs && s.jobs[j].state.Succeeded? ==> s'.jobs[j].state.Succeeded?)
    && (forall k :: k in s.indexes && !IsKeyOf(s, j, k) ==> k in s'.indexes && s'.indexes[k] == s.indexes[k])
    && (forall k :: k in s'.indexes && !IsKeyOf(s, j, k) ==> k in s.indexes)
    && (s'.tables == s.tables || AltersNow(s, s', j))
  }

  /** An alteration succeeded here. */
  predicate AltersNow(s: Store, s': Store, j: nat) {
    j in s.jobs && j in s'.jobs && s.jobs[j].definition.AlterSchema? && !s.jobs[j].state.Succeeded? && s'.jobs[j].state.Succeeded?
  }

  predicate IsKeyOf(s: Store, j: nat, k: (TableId, string)) {
    j in s.jobs && s.jobs[j].HasIndex() && s.jobs[j].IndexKey() == k
  }

  lemma DrivenByTrans(s: Store, mid: Store, s': Store, j: nat)
    requires DrivenBy(s, mid, j) && DrivenBy(mid, s', j)
    ensures DrivenBy(s, s', j)
  {
    forall k | k in s.indexes && !IsKeyOf(s, j, k) ensures k in s'.indexes && s'.indexes[k] == s.indexes[k] {
      assert k in mid.indexes && !IsKeyOf(mid, j, k);
    }
    forall k | k in s'.indexes && !IsKeyOf(s, j, k) ensures k in s.indexes {
      assert !IsKeyOf(mid, j, k);
    }
  }

  /** Only the version and the journal moved. */
  predicate SameData(s: Store, s': Store) {
    s'.jobs == s.jobs && s'.indexes == s.indexes && s'.tables == s.tables && s'.pins == s.pins
  }

  lemma JobPutDriven(s: Store, j: nat, job: DdlJobRecord)
    requires j in s.jobs && SameIdentity(s.jobs[j], job) && (Doomed(s.jobs[j].state) ==> Doomed(job.state))
    requires s.jobs[j].state.Succeeded? ==> job.state.Succeeded?
    ensures DrivenBy(s, s.(jobs := s.jobs[j := job]), j)
  {
  }

  lemma StateSetIff(s: Store, j: nat, state: JobState, at: Timestamp, error: Option<string>, expected: Option<MetadataVersion>)
    requires expected.Some? ==> j in s.jobs && expected.value == s.jobs[j].metadataVersion
    ensures
      var outcome := StateSet(s, j, state, at, error, expected);
      && (outcome.Accepted? <==> j in s.jobs && !s.jobs[j].state.IsTerminal() && (s.jobs[j].state == state || s.jobs[j].state.CanTransition(state)))
      && !outcome.Panicked?
  {
  }

  lemma StateSetPuts(s: Store, j: nat, state: JobState, at: Timestamp, error: Option<string>, expected: Option<MetadataVersion>)
    requires StateSet(s, j, state, at, error, expected).Accepted?
    ensures
      var s' := StateSet(s, j, state, at, error, expected).store;
      && j in s.jobs && s' == s.(jobs := s'.jobs) && DrivenBy(s, s', j) && s'.jobs[j].state == state
      && s'.jobs[j].phase == s.jobs[j].phase && s'.jobs[j].tabletProgress == s.jobs[j].tabletProgress
  {
    var job := s.jobs[j];
    if job.state == state && job.error == error {
      assert StateSet(s, j, state, at, error, expected) == Accepted(s);
      assert s.jobs[j := job] == s.jobs;
      JobPutDriven(s, j, job);
    } else {
      var job' := job.(state := state, updatedAt := at, error := error, metadataVersion := s.version);
      assert StateSet(s, j, state, at, error, expected) == Accepted(s.(jobs := s.jobs[j := job']));
      JobPutDriven(s, j, job');
    }
  }

  /** A state change that expects no version, or the version the job is at. */
  lemma StateEffect(s: Store, j: nat, state: JobState, at: Timestamp, error: Option<string>, expected: Option<MetadataVersion>,
                    ts: Timestamp, s': Store, r: ApplyResult)
    requires expected.Some? ==> j in s.jobs && expected.value == s.jobs[j].metadataVersion
    requires Applied(s', r) == Apply(s, SetJobState(j, state, at, error, expected), None, ts)
    ensures DrivenBy(s, s', j) && s'.indexes == s.indexes && s'.tables == s.tables
    ensures r.Err? ==> SameData(s, s')
    ensures r.Ok? <==> j in s.jobs && !s.jobs[j].state.IsTerminal() && (s.jobs[j].state == state || s.jobs[j].state.CanTransition(state))
    ensures r.Ok? ==> s'.jobs[j].state == state && s'.jobs[j].phase == s.jobs[j].phase && s'.jobs[j].tabletProgress == s.jobs[j].tabletProgress
  {
    StateSetIff(Ticked(s), j, state, at, error, expected);
    if r.Ok? {
      StateSetPuts(Ticked(s), j, state, at, error, expected);
    }
  }

  lemma MovedDriven(s: Store, j: nat, to: DdlPhase, pin: Option<Timestamp>, ts: Timestamp)
    requires j in s.jobs
    ensures
      var s' := MovedTo(s, j, to, pin, ts);
      && DrivenBy(s, s', j) && s'.tables == s.tables && s'.jobs[j].phase == to && s'.jobs[j].state == s.jobs[j].state
      && s'.jobs[j].tabletProgress == s.jobs[j].tabletProgress
  {
  }

  lemma AdvancedIs(s: Store, j: nat, to: DdlPhase, pin: Option<Timestamp>, ts: Timestamp)
    requires j in s.jobs
    ensures
      var outcome := AdvancedPhase(s, j, to, pin, None, ts);
      && !outcome.Panicked?
      && (outcome.Accepted? ==> outcome.store == if s.jobs[j].phase == to then s else MovedTo(s, j, to, pin, ts))
      && (s.jobs[j].state.Running? && s.jobs[j].phase.CanTransition(to) && !to.Public? && (to.Backfilling? ==> pin.Some?) ==> outcome.Accepted?)
  {
  }

  lemma AdvanceEffect(s: Store, j: nat, to: DdlPhase, pin: Option<Timestamp>, ts: Timestamp, s': Store, r: ApplyResult)
    requires Applied(s', r) == Apply(s, AdvancePhase(j, to, pin, None), None, ts) && j in s.jobs
    ensures DrivenBy(s, s', j) && s'.tables == s.tables
    ensures r.Err? ==> SameData(s, s')
    ensures r.Ok? ==> s'.jobs[j].phase == to && s'.jobs[j].state == s.jobs[j].state
    ensures r.Ok? ==> s'.jobs[j].tabletProgress == s.jobs[j].tabletProgress
    ensures s.jobs[j].state.Running? && s.jobs[j].phase.CanTransition(to) && !to.Public? && (to.Backfilling? ==> pin.Some?) ==> r.Ok?
  {
    AdvancedIs(Ticked(s), j, to, pin, ts);
    if r.Ok? && s.jobs[j].phase != to {
      MovedDriven(Ticked(s), j, to, pin, ts);
    }
  }

  lemma UpdateEffect(s: Store, j: nat, p: TabletDdlProgress, ts: Timestamp, s': Store, r: ApplyResult)
    requires Applied(s', r) == Apply(s, UpdateTabletProgress(j, p), None, ts)
    requires j in s.jobs && s.jobs[j].phase.Backfilling?
    ensures DrivenBy(s, s', j) && s'.indexes == s.indexes && s'.tables == s.tables
    ensures s'.jobs[j].state == s.jobs[j].state && s'.jobs[j].phase == s.jobs[j].phase
    ensures r.Ok? <==> !Regresses(s.jobs[j], p)
    ensures s'.jobs[j].tabletProgress == if r.Ok? then s.jobs[j].tabletProgress[p.tabletId := p] else s.jobs[j].tabletProgress
  {
  }

  lemma ForgetEffect(s: Store, j: nat, t: TabletId, ts: Timestamp, s': Store, r: ApplyResult)
    requires Applied(s', r) == Apply(s, ForgetTabletProgress(j, t), None, ts)
    requires j in s.jobs && s.jobs[j].phase.Backfilling?
    ensures DrivenBy(s, s', j) && s'.indexes == s.indexes && s'.tables == s.tables && r.Ok?
    ensures s'.jobs[j].state == s.jobs[j].state && s'.jobs[j].phase == s.jobs[j].phase
    ensures s'.jobs[j].tabletProgress == s.jobs[j].tabletProgress - {t}
  {
    assert t !in s.jobs[j].tabletProgress ==> s.jobs[j].tabletProgress - {t} == s.jobs[j].tabletProgress;
  }

  lemma ReportedIs(s: Store, j: nat, report: TabletValidationReport, ts: Timestamp)
    requires j in s.jobs && s.jobs[j].phase.Validating? && report.tabletId in s.jobs[j].tabletProgress
    ensures
      var outcome := ReportedTabletValidation(s, j, report, ts);
      && (outcome.Accepted? <==> s.jobs[j].tabletProgress[report.tabletId].stage.Rank() >= CaughtUp.Rank())
      && (!outcome.Accepted? ==> outcome == Refused(TabletProgressRegression(j, report.tabletId)))
  {
  }

  lemma ReportedPuts(s: Store, j: nat, report: TabletValidationReport, ts: Timestamp)
    requires j in s.jobs && s.jobs[j].phase.Validating? && report.tabletId in s.jobs[j].tabletProgress
    requires ReportedTabletValidation(s, j, report, ts).Accepted?
    ensures
      var s' := ReportedTabletValidation(s, j, report, ts).store;
      && DrivenBy(s, s', j) && s' == s.(jobs := s'.jobs)
      && s'.jobs[j].state == s.jobs[j].state && s'.jobs[j].phase == s.jobs[j].phase
      && s'.jobs[j].tabletProgress == s.jobs[j].tabletProgress[report.tabletId := s'.jobs[j].tabletProgress[report.tabletId]]
      && s'.jobs[j].tabletProgress[report.tabletId].stage ==
           if report.Passed() then Validated else s.jobs[j].tabletProgress[report.tabletId].stage
  {
    var s' := ReportedTabletValidation(s, j, report, ts).store;
    assert s'.jobs[j].tabletProgress == s.jobs[j].tabletProgress[report.tabletId := s'.jobs[j].tabletProgress[report.tabletId]];
  }

  lemma ReportEffect(s: Store, j: nat, report: TabletValidationReport, ts: Timestamp, s': Store, r: ApplyResult)
    requires Applied(s', r) == Apply(s, ReportTabletValidation(j, report), None, ts)
    requires j in s.jobs && s.jobs[j].phase.Validating? && report.tabletId in s.jobs[j].tabletProgress
    ensures DrivenBy(s, s', j) && s'.indexes == s.indexes && s'.tables == s.tables
    ensures s'.jobs[j].state == s.jobs[j].state && s'.jobs[j].phase == s.jobs[j].phase
    ensures r.Ok? <==> s.jobs[j].tabletProgress[report.tabletId].stage.Rank() >= CaughtUp.Rank()
    ensures r.Err? ==> r.reason == TabletProgressRegression(j, report.tabletId)
    ensures s'.jobs[j].tabletProgress.Keys == s.jobs[j].tabletProgress.Keys
    ensures forall t | t in s.jobs[j].tabletProgress && t != report.tabletId :: s'.jobs[j].tabletProgress[t] == s.jobs[j].tabletProgress[t]
    ensures s'.jobs[j].tabletProgress[report.tabletId].stage ==
            if r.Ok? && report.Passed() then Validated else s.jobs[j].tabletProgress[report.tabletId].stage
  {
    ReportedIs(Ticked(s), j, report, ts);
    if r.Ok? {
      ReportedPuts(Ticked(s), j, report, ts);
    }
  }

  lemma PublishedPuts(s: Store, j: nat, at: Timestamp, ts: Timestamp)
    requires j in s.jobs && s.jobs[j].state.Running? && PublishedJob(s, j, at, ts).Accepted?
    ensures
      var s' := PublishedJob(s, j, at, ts).store;
      && DrivenBy(s, s', j) && s'.jobs[j].state.Succeeded? && s'.jobs[j].phase.Public?
      && s'.jobs[j].tabletProgress == s.jobs[j].tabletProgress
  {
    match s.jobs[j].definition
    case AddIndex(_, _) =>
    case _ =>
  }

  lemma PublishEffect(s: Store, j: nat, at: Timestamp, ts: Timestamp, s': Store, r: ApplyResult)
    requires Applied(s', r) == Apply(s, PublishJob(j, at), None, ts) && j in s.jobs && s.jobs[j].state.Running?
    ensures DrivenBy(s, s', j)
    ensures r.Err? ==> SameData(s, s')
    ensures r.Ok? ==> s'.jobs[j].state.Succeeded? && s'.jobs[j].phase.Public? && s'.jobs[j].tabletProgress == s.jobs[j].tabletProgress
  {
    if r.Ok? {
      PublishedPuts(Ticked(s), j, at, ts);
    }
  }

  /** An unwinding addition's record can always be removed, and then is gone. */
  lemma RemoveEffect(s: Store, j: nat, ts: Timestamp, s': Store, r: ApplyResult)
    requires Applied(s', r) == Apply(s, RemoveIndexRecord(j), None, ts)
    requires Inv(s) && j in s.jobs && s.jobs[j].state.RollingBack? && s.jobs[j].definition.AddIndex?
    ensures r.Ok? && DrivenBy(s, s', j) && s'.tables == s.tables
    ensures s.jobs[j].IndexKey() !in s'.indexes
    ensures s'.jobs[j].state == s.jobs[j].state && s'.jobs[j].phase == s.jobs[j].phase && s'.jobs[j].tabletProgress == s.jobs[j].tabletProgress
  {
    var key := s.jobs[j].IndexKey();
    assert LinkOk(s.indexes, s.jobs[j]) && JobOk(s.tables, j, s.jobs[j]);
    if key in s.indexes {
      assert RecordOk(s.jobs, s.version, key, s.indexes[key]);
    }
  }

  /** An unfinished addition unwinds only its own record. */
  lemma RemovalWellFormed(s: Store, j: nat)
    requires Inv(s) && j in s.jobs && !s.jobs[j].state.IsTerminal() && s.jobs[j].definition.AddIndex?
    ensures WellFormed(s, RemoveIndexRecord(j))
  {
  }
}
