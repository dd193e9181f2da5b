/** Where the store is more permissive than its documentation: replayed submissions, unwinds of
    foreign records, and jobs whose kind does not name their definition. */
module DdlAnomalies {
  import opened Common
  import opened DdlTypes
  import opened DdlStoreSpec
  import opened DdlInvariant
  import opened DdlHistory
  import opened DdlEffects
  import opened DdlTheorems
  import opened DriverEffects

  /** Submission stamps `updatedAt` before it stores, and compares it on replay: replaying a
      submission is accepted exactly when the job already carried its own commit timestamp. */
  lemma SubmitReplayIff(s: Store, job: DdlJobRecord, ts: Timestamp, s': Store, later: Timestamp)
    requires job.jobId !in s.jobs && SubmittedJob(s, job, ts) == Accepted(s')
    ensures SubmittedJob(Ticked(s'), job, later).Accepted? <==> job.updatedAt == ts
  {
  }

  // ---------------------------------------------------- unwinding a foreign record

  const KEY: (TableId, string) := (1, "a")

  function Job(j: nat, kind: DdlJobKind, definition: DdlDefinition): DdlJobRecord {
    DdlJobRecord(j, 1, 1, kind, Queued, StartPhase(kind), definition, 1, 0, 0, None, map[], None, 0)
  }

  /** One more command of a run from the empty store. */
  lemma Issue(s: Store, c: DdlCommand) returns (s': Store, r: ApplyResult)
    requires Reachable(s) && WellFormed(s, c)
    ensures Reachable(s') && Applied(s', r) == Apply(s, c, None, 0)
  {
    ReachableInv(s);
    StepKeeps(s, Call(c, None, 0));
    var a := Apply(s, c, None, 0);
    s', r := a.store, a.result;
    ReachableStep(s, Call(c, None, 0), s');
  }

  ghost predicate OneTable(s: Store) {
    Reachable(s) && 1 in s.tables && s.tables[1].databaseId == 1 && s.tables[1].schemaVersion == 1
  }

  /** Job 1 tried to add the index and failed; its name is free again. */
  ghost predicate FirstFailed(s: Store) {
    && OneTable(s) && s.pins == map[] && s.jobs.Keys == {1} && s.jobs[1].state.Failed?
    && s.jobs[1].HasIndex() && s.jobs[1].IndexKey() == KEY && KEY !in s.indexes
  }

  lemma SubmitAccepted(s: Store, job: DdlJobRecord, s': Store, r: ApplyResult)
    requires OneTable(s) && job.jobId !in s.jobs && job.jobId != 0 && !HasActiveJob(s, 1)
    requires job.definition.AddIndex? || job.definition.DropIndex?
    requires job == Job(job.jobId, if job.definition.AddIndex? then KindAddIndex else KindDropIndex, job.definition) && job.definition.indexName == "a"
    requires if job.definition.AddIndex? then KEY !in s.indexes else KEY in s.indexes && s.indexes[KEY].phase.Public?
    requires Applied(s', r) == Apply(s, SubmitJob(job), None, 0)
    ensures s'.jobs == s.jobs[job.jobId := job.(metadataVersion := s.version + 1, updatedAt := 0)] && s'.tables == s.tables && s'.pins == s.pins
    ensures job.definition.DropIndex? ==> s'.indexes == s.indexes
  {
    assert !IsBlank("a") by { assert "a"[0] == 'a'; }
  }

  lemma FirstAddCancelled() returns (s: Store)
    ensures FirstFailed(s)
  {
    EmptyReachable();
    var r;
    s, r := Issue(EMPTY_STORE, RegisterTable(TableAnchor(1, 1, 1, "schema", 0)));
    var job := Job(1, KindAddIndex, AddIndex("a", "spec"));
    var s1, r1 := Issue(s, SubmitJob(job));
    SubmitAccepted(s, job, s1, r1);
    s := FirstUnwound(s1);
  }

  lemma FirstUnwound(s: Store) returns (s': Store)
    requires FirstAt(s, Queued)
    ensures FirstFailed(s')
  {
    var s1 := FirstMoves(s, Cancelling);
    var s2 := FirstMoves(s1, RollingBack);
    var s3 := FirstRemoved(s2);
    s' := FirstMoves(s3, JobState.Failed);
  }

  ghost predicate FirstAt(s: Store, state: JobState) {
    && OneTable(s) && s.pins == map[] && s.jobs.Keys == {1} && s.jobs[1].state == state
    && s.jobs[1].definition.AddIndex? && s.jobs[1].IndexKey() == KEY
  }

  lemma FirstMoves(s: Store, state: JobState) returns (s': Store)
    requires exists from :: FirstAt(s, from) && from.CanTransition(state) && !from.IsTerminal()
    ensures FirstAt(s', state) && s'.indexes == s.indexes
  {
    var r;
    s', r := Issue(s, SetJobState(1, state, 0, None, None));
    StateEffect(s, 1, state, 0, None, None, 0, s', r);
  }

  lemma FirstRemoved(s: Store) returns (s': Store)
    requires FirstAt(s, RollingBack)
    ensures FirstAt(s', RollingBack) && KEY !in s'.indexes
  {
    ReachableInv(s);
    RemovalWellFormed(s, 1);
    var r;
    s', r := Issue(s, RemoveIndexRecord(1));
    RemoveEffect(s, 1, 0, s', r);
  }

  /** Job 2 is adding the name again. */
  ghost predicate SecondAt(s: Store, state: JobState, phase: DdlPhase, progress: map<TabletId, TabletDdlProgress>) {
    && OneTable(s) && s.pins == map[] && s.jobs.Keys == {1, 2} && s.jobs[1].state.Failed?
    && s.jobs[1].HasIndex() && s.jobs[1].IndexKey() == KEY
    && s.jobs[2].kind.KindAddIndex? && s.jobs[2].definition == AddIndex("a", "spec") && s.jobs[2].tableId == 1 && s.jobs[2].sourceSchemaVersion == 1
    && s.jobs[2].state == state && s.jobs[2].phase == phase && s.jobs[2].tabletProgress == progress
  }

  const CAUGHT_UP := TabletDdlProgress(7, CaughtUp, 0, Some(0), None)
  const REPORT := TabletValidationReport(7, 0, 0, 0, [], [])

  lemma SecondSubmitted(s: Store) returns (s': Store)
    requires FirstFailed(s)
    ensures SecondAt(s', Queued, Pending, map[])
  {
    var job := Job(2, KindAddIndex, AddIndex("a", "spec"));
    var r;
    s', r := Issue(s, SubmitJob(job));
    SubmitAccepted(s, job, s', r);
  }

  lemma SecondAdvances(s: Store, from: DdlPhase, to: DdlPhase, progress: map<TabletId, TabletDdlProgress>) returns (s': Store)
    requires SecondAt(s, Running, from, progress) && from.CanTransition(to) && !to.Public?
    ensures SecondAt(s', Running, to, progress)
  {
    var r;
    s', r := Issue(s, AdvancePhase(2, to, Some(0), None));
    AdvanceEffect(s, 2, to, Some(0), 0, s', r);
  }

  lemma SecondValidating(s: Store) returns (s': Store)
    requires SecondAt(s, Queued, Pending, map[])
    ensures SecondAt(s', Running, Validating, map[7 := CAUGHT_UP])
  {
    var s1, r1 := Issue(s, SetJobState(2, Running, 0, None, None));
    StateEffect(s, 2, Running, 0, None, None, 0, s1, r1);
    var s2 := SecondAdvances(s1, Pending, WriteOnly, map[]);
    var s3 := SecondAdvances(s2, WriteOnly, Backfilling, map[]);
    var s4, r4 := Issue(s3, UpdateTabletProgress(2, CAUGHT_UP));
    UpdateEffect(s3, 2, CAUGHT_UP, 0, s4, r4);
    assert map[][7 := CAUGHT_UP] == map[7 := CAUGHT_UP];
    s' := SecondAdvances(s4, Backfilling, Validating, map[7 := CAUGHT_UP]);
  }

  /** The name is public under job 2. */
  ghost predicate SecondPublished(s: Store) {
    && OneTable(s) && s.jobs.Keys == {1, 2} && s.jobs[1].state.Failed? && s.jobs[2].state.Succeeded?
    && s.jobs[1].HasIndex() && s.jobs[1].IndexKey() == KEY
    && KEY in s.indexes && s.indexes[KEY].phase.Public? && s.indexes[KEY].jobId == 2 && s.pins == map[]
  }

  lemma SecondReported(s: Store) returns (s': Store)
    requires SecondAt(s, Running, Validating, map[7 := CAUGHT_UP])
    ensures SecondAt(s', Running, Validating, map[7 := CAUGHT_UP.(stage := Validated, caughtUpThrough := Some(0), validation := Some(REPORT))])
  {
    var r;
    s', r := Issue(s, ReportTabletValidation(2, REPORT));
    ReportEffect(s, 2, REPORT, 0, s', r);
    assert s'.jobs[2].tabletProgress[7] == CAUGHT_UP.(stage := Validated, caughtUpThrough := Some(0), validation := Some(REPORT));
  }

  lemma SecondPublishes(s: Store) returns (s': Store)
    requires SecondAt(s, Running, Validating, map[7 := CAUGHT_UP.(stage := Validated, caughtUpThrough := Some(0), validation := Some(REPORT))])
    ensures SecondPublished(s')
  {
    ReachableInv(s);
    assert LinkOk(s.indexes, s.jobs[2]);
    assert s.jobs[2].IndexKey() == KEY;
    assert PendingTablets(s.jobs[2]) == {};
    var r;
    s', r := Issue(s, PublishJob(2, 0));
    assert 7 in s.jobs[2].tabletProgress;
  }

  /**
   * A reachable store: the name was added by job 2, pinned by reader 9 at version `v`, and is being
   * dropped by job 3, while job 1, which failed to add it earlier, still names it.
   */
  ghost predicate RetiringUnderPin(s: Store, v: MetadataVersion) {
    && Reachable(s) && v <= s.version && s.pins == map[9 := v]
    && 1 in s.jobs && s.jobs[1].state.Failed? && s.jobs[1].HasIndex() && s.jobs[1].IndexKey() == KEY
    && KEY in s.indexes && s.indexes[KEY].phase.Dropping? && s.indexes[KEY].VisibleAt(v) && s.indexes[KEY].jobId == 2
  }

  ghost predicate PinnedPublic(s: Store, v: MetadataVersion, r: DdlIndexRecord) {
    && OneTable(s) && v <= s.version && s.pins == map[9 := v] && 1 in s.jobs && s.jobs[1].state.Failed? && 2 in s.jobs && s.jobs[2].state.Succeeded?
    && s.jobs[1].HasIndex() && s.jobs[1].IndexKey() == KEY
    && KEY in s.indexes && s.indexes[KEY] == r && r.phase.Public? && r.VisibleAt(v) && r.jobId == 2
  }

  lemma PinPublic(s: Store) returns (s': Store, v: MetadataVersion, rec: DdlIndexRecord)
    requires SecondPublished(s)
    ensures PinnedPublic(s', v, rec) && s'.jobs.Keys == {1, 2}
  {
    ReachableInv(s);
    assert RecordOk(s.jobs, s.version, KEY, s.indexes[KEY]);
    v, rec := s.version, s.indexes[KEY];
    var r;
    s', r := Issue(s, PinReader(9, v));
    assert s'.jobs == s.jobs && s'.indexes == s.indexes && s'.tables == s.tables && s'.pins == map[9 := v];
    VersionTicks(s, PinReader(9, v), None, 0);
  }

  lemma SubmitDrop(s: Store, v: MetadataVersion, rec: DdlIndexRecord) returns (s': Store)
    requires PinnedPublic(s, v, rec) && s.jobs.Keys == {1, 2}
    ensures PinnedPublic(s', v, rec) && s'.jobs.Keys == {1, 2, 3}
    ensures s'.jobs[3].state.Queued? && s'.jobs[3].phase.Public? && s'.jobs[3].definition == DropIndex("a") && s'.jobs[3].tableId == 1
  {
    var job := Job(3, KindDropIndex, DropIndex("a"));
    var r;
    s', r := Issue(s, SubmitJob(job));
    SubmitAccepted(s, job, s', r);
    VersionTicks(s, SubmitJob(job), None, 0);
  }

  lemma DropRuns(s: Store, v: MetadataVersion, rec: DdlIndexRecord) returns (s': Store)
    requires PinnedPublic(s, v, rec) && 3 in s.jobs && s.jobs[3].state.Queued? && s.jobs[3].phase.Public?
    requires s.jobs[3].definition == DropIndex("a") && s.jobs[3].tableId == 1
    ensures PinnedPublic(s', v, rec) && 3 in s'.jobs && s'.jobs[3].state.Running? && s'.jobs[3].phase.Public?
    ensures s'.jobs[3].definition == DropIndex("a") && s'.jobs[3].tableId == 1
  {
    var c := SetJobState(3, Running, 0, None, None);
    var r;
    s', r := Issue(s, c);
    StateEffect(s, 3, Running, 0, None, None, 0, s', r);
    VersionTicks(s, c, None, 0);
  }

  lemma DropAdvances(s: Store, v: MetadataVersion, rec: DdlIndexRecord) returns (s': Store)
    requires PinnedPublic(s, v, rec) && 3 in s.jobs && s.jobs[3].state.Running? && s.jobs[3].phase.Public?
    requires s.jobs[3].definition == DropIndex("a") && s.jobs[3].tableId == 1
    ensures RetiringUnderPin(s', v)
  {
    var c := AdvancePhase(3, Dropping, None, None);
    var r;
    s', r := Issue(s, c);
    AdvanceEffect(s, 3, Dropping, None, 0, s', r);
    VersionTicks(s, c, None, 0);
    ReachableInv(s);
    PublicStaysOrDrops(s, Call(c, None, 0), s', KEY);
    DropLinked(s', 3);
  }

  lemma DropLinked(s: Store, j: nat)
    requires Reachable(s) && j in s.jobs && s.jobs[j].definition == DropIndex("a") && s.jobs[j].tableId == 1
    requires !s.jobs[j].state.IsTerminal() && s.jobs[j].phase.Dropping? && KEY in s.indexes
    ensures s.indexes[KEY].phase.Dropping?
  {
    ReachableInv(s);
    assert LinkOk(s.indexes, s.jobs[j]);
  }

  lemma PublishedAgain() returns (s: Store)
    ensures SecondPublished(s)
  {
    var s1 := FirstAddCancelled();
    var s2 := SecondSubmitted(s1);
    var s3 := SecondValidating(s2);
    var s4 := SecondReported(s3);
    s := SecondPublishes(s4);
  }

  lemma RetiringRun() returns (s: Store, v: MetadataVersion)
    ensures RetiringUnderPin(s, v)
  {
    var s1 := PublishedAgain();
    var s2, v2, rec := PinPublic(s1);
    var s3 := SubmitDrop(s2, v2, rec);
    var s4 := DropRuns(s3, v2, rec);
    s := DropAdvances(s4, v2, rec);
    v := v2;
  }

  /**
   * From the empty store, by commands the store accepts: add, cancel, add again, publish, pin, drop.
   * Removing the record under the first job is then accepted and changes what the reader has pinned.
   */
  lemma ForeignUnwindBreaksPinnedView() returns (s: Store, v: MetadataVersion)
    ensures Reachable(s) && 9 in s.pins && s.pins[9] == v && v <= s.version
    ensures !WellFormed(s, RemoveIndexRecord(1)) && RemovedIndexRecord(s, 1).Accepted?
    ensures PlannerView(RemovedIndexRecord(s, 1).store, 1, v) != PlannerView(s, 1, v)
  {
    s, v := RetiringRun();
    NotItsOwn(s);
    FirstRemovesSecond(s, v);
  }

  lemma NotItsOwn(s: Store)
    requires 1 in s.jobs && s.jobs[1].HasIndex() && s.jobs[1].IndexKey() == KEY
    requires KEY in s.indexes && s.indexes[KEY].jobId != 1
    ensures !WellFormed(s, RemoveIndexRecord(1))
  {
  }

  lemma FirstRemovesSecond(s: Store, v: MetadataVersion)
    requires RetiringUnderPin(s, v)
    ensures RemovedIndexRecord(s, 1).Accepted? && PlannerView(RemovedIndexRecord(s, 1).store, 1, v) != PlannerView(s, 1, v)
  {
    ReachableInv(s);
    UnwindKeepsViewIff(s, 1, v);
  }

  // ------------------------------------------------------------ mismatched jobs

  /** Applies commands in turn, stopping at the first that is not accepted. */
  ghost function ApplyAll(s: Store, commands: seq<DdlCommand>, ts: Timestamp): Applied
    decreases |commands|
  {
    if commands == [] then Applied(s, Ok) else
    match Apply(s, commands[0], None, ts)
    case Applied(s', Ok) => ApplyAll(s', commands[1..], ts)
    case other => other
  }

  lemma ApplyFirst(s: Store, c: DdlCommand, rest: seq<DdlCommand>, ts: Timestamp)
    requires Apply(s, c, None, ts).Applied? && Apply(s, c, None, ts).result.Ok?
    ensures ApplyAll(s, [c] + rest, ts) == ApplyAll(Apply(s, c, None, ts).store, rest, ts)
  {
  }

  /** The commands a driver issues for one tablet, from admission to publication. */
  function FirstHalf(j: nat): seq<DdlCommand> {
    [SetJobState(j, Running, 0, None, None)] + ([AdvancePhase(j, WriteOnly, None, None)] +
      ([AdvancePhase(j, Backfilling, Some(0), None)] + []))
  }

  function SecondHalf(j: nat, tablet: TabletId): seq<DdlCommand> {
    [UpdateTabletProgress(j, TabletDdlProgress(tablet, CaughtUp, 0, Some(0), None))] +
      ([AdvancePhase(j, Validating, None, None)] +
        ([ReportTabletValidation(j, TabletValidationReport(tablet, 0, 0, 0, [], []))] +
          ([PublishJob(j, 0)] + [])))
  }

  /** A job that claims to add an index or alter the schema while its definition drops an index. */
  predicate Mismatched(s: Store, j: nat, state: JobState, phase: DdlPhase) {
    && j in s.jobs && s.jobs[j].kind != KindDropIndex && s.jobs[j].definition.DropIndex?
    && s.jobs[j].state == state && s.jobs[j].phase == phase && s.jobs[j].tabletProgress == map[]
    && s.jobs[j].tableId in s.tables
    && s.tables[s.jobs[j].tableId].schemaVersion == s.jobs[j].sourceSchemaVersion
  }

  lemma SetRunning(s: Store, j: nat, ts: Timestamp)
    requires Mismatched(s, j, Queued, Pending)
    ensures var a := Apply(s, SetJobState(j, Running, 0, None, None), None, ts);
      a.Applied? && a.result.Ok? && Mismatched(a.store, j, Running, Pending)
  {
  }

  lemma Advance(s: Store, j: nat, from: DdlPhase, to: DdlPhase, pin: Option<Timestamp>, ts: Timestamp)
    requires Mismatched(s, j, Running, from) && from.CanTransition(to) && !to.Public? && (to.Backfilling? ==> pin.Some?)
    ensures var a := Apply(s, AdvancePhase(j, to, pin, None), None, ts);
      a.Applied? && a.result.Ok? && Mismatched(a.store, j, Running, to)
  {
  }

  lemma FirstHalfApplies(s: Store, j: nat, ts: Timestamp)
    requires Mismatched(s, j, Queued, Pending)
    ensures ApplyAll(s, FirstHalf(j), ts).Applied? && ApplyAll(s, FirstHalf(j), ts).result.Ok?
    ensures Mismatched(ApplyAll(s, FirstHalf(j), ts).store, j, Running, Backfilling)
  {
    var c1, c2, c3 := SetJobState(j, Running, 0, None, None), AdvancePhase(j, WriteOnly, None, None), AdvancePhase(j, Backfilling, Some(0), None);
    SetRunning(s, j, ts);
    ApplyFirst(s, c1, [c2] + ([c3] + []), ts);
    var s1 := Apply(s, c1, None, ts).store;
    Advance(s1, j, Pending, WriteOnly, None, ts);
    ApplyFirst(s1, c2, [c3] + [], ts);
    var s2 := Apply(s1, c2, None, ts).store;
    Advance(s2, j, WriteOnly, Backfilling, Some(0), ts);
    ApplyFirst(s2, c3, [], ts);
  }

  /** What the second half does to the mismatched job, up to the publication. */
  lemma SecondHalfApplies(s: Store, j: nat, tablet: TabletId, ts: Timestamp)
    requires Mismatched(s, j, Running, Backfilling)
    ensures ApplyAll(s, SecondHalf(j, tablet), ts) == Crashed
  {
    var c1 := UpdateTabletProgress(j, TabletDdlProgress(tablet, CaughtUp, 0, Some(0), None));
    var c2 := AdvancePhase(j, Validating, None, None);
    var report := TabletValidationReport(tablet, 0, 0, 0, [], []);
    var c3, c4 := ReportTabletValidation(j, report), PublishJob(j, 0);
    var a1 := Apply(s, c1, None, ts);
    assert a1.Applied? && a1.result.Ok? && a1.store.jobs[j].tabletProgress == map[tablet := c1.progress];
    ApplyFirst(s, c1, [c2] + ([c3] + ([c4] + [])), ts);
    var a2 := Apply(a1.store, c2, None, ts);
    assert a2.Applied? && a2.result.Ok? && a2.store.jobs[j].phase.Validating?;
    ApplyFirst(a1.store, c2, [c3] + ([c4] + []), ts);
    ReportThenPanic(a2.store, j, tablet, ts);
  }

  lemma ReportThenPanic(s: Store, j: nat, tablet: TabletId, ts: Timestamp)
    requires j in s.jobs && Mismatched(s.(jobs := s.jobs[j := s.jobs[j].(tabletProgress := map[])]), j, Running, Validating)
    requires s.jobs[j].tabletProgress == map[tablet := TabletDdlProgress(tablet, CaughtUp, 0, Some(0), None)]
    ensures ApplyAll(s, [ReportTabletValidation(j, TabletValidationReport(tablet, 0, 0, 0, [], []))] + ([PublishJob(j, 0)] + []), ts) == Crashed
  {
    var c := ReportTabletValidation(j, TabletValidationReport(tablet, 0, 0, 0, [], []));
    var a := Apply(s, c, None, ts);
    assert a.Applied? && a.result.Ok?;
    ApplyFirst(s, c, [PublishJob(j, 0)] + [], ts);
    assert tablet in a.store.jobs[j].tabletProgress && a.store.jobs[j].tabletProgress.Keys == {tablet};
    assert PendingTablets(a.store.jobs[j]) == {};
    assert Apply(a.store, PublishJob(j, 0), None, ts) == Crashed;
  }

  /** Every accepted submission whose definition is a drop and whose kind is not is one the ordinary
      driving commands take to a panic. */
  lemma MismatchedSubmissionPanics(s: Store, job: DdlJobRecord, tablet: TabletId, ts: Timestamp)
    requires job.jobId !in s.jobs && job.kind != KindDropIndex && job.definition.DropIndex? && job.tabletProgress == map[]
    requires SubmittedJob(Ticked(s), job, ts).Accepted?
    ensures
      var submitted := SubmittedJob(Ticked(s), job, ts).store;
      var half := ApplyAll(submitted, FirstHalf(job.jobId), ts);
      half.Applied? && ApplyAll(half.store, SecondHalf(job.jobId, tablet), ts) == Crashed
  {
    var submitted := SubmittedJob(Ticked(s), job, ts).store;
    assert Mismatched(submitted, job.jobId, Queued, Pending);
    FirstHalfApplies(submitted, job.jobId, ts);
    SecondHalfApplies(ApplyAll(submitted, FirstHalf(job.jobId), ts).store, job.jobId, tablet, ts);
  }
}
