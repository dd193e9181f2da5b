/**
 * The DDL driver: one protocol action at a time, dying between any two of its effects and replaced
 * by a driver that starts from what the store recorded.
 */
module DdlDrivers {
  import opened Common
  import opened DdlTypes
  import opened DdlStoreSpec
  import opened DdlInvariant
  import opened DdlHistory
  import opened DdlJobStores
  import opened DriverEffects
  import opened DdlCommands

  /** Which builds a tablet holds, by index name, and how many were ever begun. */
  datatype TabletIndexes = TabletIndexes(staged: set<string>, installed: set<string>, builds: nat) {
    predicate Holds(index: string) { index in staged || index in installed }
  }

  type Tablets = map<TabletId, TabletIndexes>

  datatype HaltReason = NoJob | ValidationFailed | Rejected(reason: DdlRejection)

  datatype DriveStep = Parked | RolledBack | Terminal | Advanced | Halted(why: HaltReason) | Died

  predicate CaughtUpIn(s: Store, j: nat, t: TabletId) {
    j in s.jobs && t in s.jobs[j].tabletProgress && s.jobs[j].tabletProgress[t].stage.Rank() >= CaughtUp.Rank()
  }

  /** A tablet recorded as caught up by an addition holds its build. */
  predicate Backed(s: Store, tabs: Tablets, j: nat, t: TabletId) {
    CaughtUpIn(s, j, t) && s.jobs[j].definition.AddIndex? ==> t in tabs && s.jobs[j].definition.indexName in tabs[t].installed
  }

  /**
   * What driving keeps: everything outside the job and its tablets, and every finished tablet. A
   * tablet is recorded as caught up only with its build in place, which stays until an unwind.
   */
  ghost predicate Kept(s: Store, tabs: Tablets, s': Store, tabs': Tablets, j: nat, mine: set<TabletId>) {
    && DrivenBy(s, s', j) && tabs'.Keys == tabs.Keys
    && (forall t :: t in tabs && t !in mine ==> tabs'[t] == tabs[t])
    && (forall t :: t in tabs && t in mine && CaughtUpIn(s, j, t) ==> CaughtUpIn(s', j, t) && tabs'[t].builds == tabs[t].builds)
    && (j in s'.jobs && !Doomed(s'.jobs[j].state) ==>
          forall t :: t in tabs && t in mine && Backed(s, tabs, j, t) ==> Backed(s', tabs', j, t))
  }

  lemma KeptTrans(s: Store, tabs: Tablets, mid: Store, midTabs: Tablets, s': Store, tabs': Tablets, j: nat, mine: set<TabletId>)
    requires Kept(s, tabs, mid, midTabs, j, mine) && Kept(mid, midTabs, s', tabs', j, mine)
    ensures Kept(s, tabs, s', tabs', j, mine)
  {
    DrivenByTrans(s, mid, s', j);
  }

  /** A command that leaves the job's tablet progress alone, issued beside untouched tablets. */
  lemma QuietKept(s: Store, s': Store, tabs: Tablets, j: nat, mine: set<TabletId>)
    requires DrivenBy(s, s', j) && (j in s.jobs ==> s'.jobs[j].tabletProgress == s.jobs[j].tabletProgress)
    ensures Kept(s, tabs, s', tabs, j, mine)
  {
  }

  /** What an addition records as caught up is installed. */
  predicate Holding(job: DdlJobRecord, tabs: Tablets, p: TabletDdlProgress) {
    p.stage.Rank() >= CaughtUp.Rank() && job.definition.AddIndex? ==>
      p.tabletId in tabs && job.definition.indexName in tabs[p.tabletId].installed
  }

  /** Recording progress for a tablet, never below what is recorded. */
  lemma AddedKept(s: Store, s': Store, tabs: Tablets, j: nat, mine: set<TabletId>, p: TabletDdlProgress)
    requires DrivenBy(s, s', j) && j in s.jobs && !Regresses(s.jobs[j], p)
    requires s.jobs[j].phase.Backfilling? && s'.jobs[j].phase.Backfilling?
    requires s'.jobs[j].tabletProgress == s.jobs[j].tabletProgress[p.tabletId := p]
    requires Holding(s.jobs[j], tabs, p)
    ensures Kept(s, tabs, s', tabs, j, mine)
  {
  }

  predicate OnlyRegistered(p: map<TabletId, TabletDdlProgress>, p': map<TabletId, TabletDdlProgress>) {
    && (forall t :: t in p ==> t in p' && p'[t] == p[t])
    && forall t :: t in p' && t !in p ==> p'[t] == RegisteredTablet(t)
  }

  lemma RegisteredMore(p: map<TabletId, TabletDdlProgress>, p': map<TabletId, TabletDdlProgress>, t: TabletId)
    requires OnlyRegistered(p, p') && t !in p'
    ensures OnlyRegistered(p, p'[t := RegisteredTablet(t)])
  {
  }

  /** Entries of the table's own tablets are as they were. */
  predicate ForgotOthers(p: map<TabletId, TabletDdlProgress>, p': map<TabletId, TabletDdlProgress>, mine: set<TabletId>) {
    && (forall t :: t in p && t in mine ==> t in p' && p'[t] == p[t])
    && forall t :: t in p' ==> t in p
  }

  lemma ForgotOne(p: map<TabletId, TabletDdlProgress>, p': map<TabletId, TabletDdlProgress>, mine: set<TabletId>, t: TabletId)
    requires ForgotOthers(p, p', mine) && t !in mine
    ensures ForgotOthers(p, p' - {t}, mine)
  {
  }

  predicate OnlyMine(p: map<TabletId, TabletDdlProgress>, p': map<TabletId, TabletDdlProgress>, mine: set<TabletId>) {
    ForgotOthers(p, p', mine) && p'.Keys <= mine
  }

  /** Recording one tablet leaves the others' entries. */
  lemma RecordedOne(p: map<TabletId, TabletDdlProgress>, p': map<TabletId, TabletDdlProgress>, x: TabletDdlProgress)
    requires OthersSame(p, p', x.tabletId)
    ensures OthersSame(p, p'[x.tabletId := x], x.tabletId)
  {
  }

  predicate OthersSame(p: map<TabletId, TabletDdlProgress>, p': map<TabletId, TabletDdlProgress>, t: TabletId) {
    && (forall q :: q in p && q != t ==> q in p' && p'[q] == p[q])
    && forall q :: q in p' && q != t ==> q in p
  }

  lemma BuiltUnfinished(job: DdlJobRecord, job': DdlJobRecord, mine: set<TabletId>, t: TabletId)
    requires job.phase.Backfilling? && job'.phase.Backfilling? && OthersSame(job.tabletProgress, job'.tabletProgress, t)
    requires t in job'.tabletProgress && job'.tabletProgress[t].stage.Rank() >= CaughtUp.Rank()
    ensures Unfinished(job', mine) == Unfinished(job, mine) - {t}
  {
  }

  /** Registering and forgetting leave exactly the table's tablets, each with the entry it had or a fresh one. */
  lemma Prepared(job: DdlJobRecord, registered: DdlJobRecord, job': DdlJobRecord, mine: set<TabletId>)
    requires OnlyRegistered(job.tabletProgress, registered.tabletProgress) && mine <= registered.tabletProgress.Keys
    requires OnlyMine(registered.tabletProgress, job'.tabletProgress, mine)
    requires job.phase.Backfilling? && job'.phase.Backfilling?
    ensures IsPrepared(job, job', mine) && Unfinished(job', mine) == Unfinished(job, mine)
  {
  }

  ghost predicate IsPrepared(job: DdlJobRecord, job': DdlJobRecord, mine: set<TabletId>) {
    job'.tabletProgress.Keys == mine && forall q :: q in mine ==> job'.tabletProgress[q] == EntryOf(job, q)
  }

  lemma BuiltTook(job: DdlJobRecord, mid: DdlJobRecord, job': DdlJobRecord, mine: set<TabletId>, t: TabletId)
    requires IsPrepared(job, mid, mine) && t in Unfinished(job, mine) && t in mine && job'.phase.Backfilling?
    requires OthersSame(mid.tabletProgress, job'.tabletProgress, t) && t in job'.tabletProgress && job'.tabletProgress[t].stage.CaughtUp?
    ensures TookBackfill(job, job', mine)
  {
    assert BackfilledOne(job, job', mine, t);
  }

  lemma ReportKept(s: Store, s': Store, tabs: Tablets, j: nat, mine: set<TabletId>, t: TabletId)
    requires DrivenBy(s, s', j) && j in s.jobs && s'.jobs[j].tabletProgress.Keys == s.jobs[j].tabletProgress.Keys
    requires forall q | q in s.jobs[j].tabletProgress && q != t :: s'.jobs[j].tabletProgress[q] == s.jobs[j].tabletProgress[q]
    requires t in s.jobs[j].tabletProgress && s'.jobs[j].tabletProgress[t].stage.Rank() >= s.jobs[j].tabletProgress[t].stage.Rank()
    requires CaughtUpIn(s', j, t) ==> CaughtUpIn(s, j, t)
    ensures Kept(s, tabs, s', tabs, j, mine) && OthersSame(s.jobs[j].tabletProgress, s'.jobs[j].tabletProgress, t)
  {
  }

  lemma ValidatedUnfinished(job: DdlJobRecord, job': DdlJobRecord, mine: set<TabletId>, t: TabletId)
    requires job.phase.Validating? && job'.phase.Validating? && job'.state == job.state
    requires OthersSame(job.tabletProgress, job'.tabletProgress, t) && t in Unfinished(job, mine)
    requires t in job'.tabletProgress && job'.tabletProgress[t].stage.Validated?
    ensures Closer(job, job', mine)
  {
  }

  predicate Unwinding(state: JobState) { state.Cancelling? || state.RollingBack? }

  /** A job a replacement driver can pick up. */
  predicate Resumable(state: JobState) { state.Running? || state.RollingBack? || state.Cancelling? }

  /** Only a drop runs at Public: an addition gets there by succeeding. */
  lemma RunningPhase(s: Store, j: nat)
    requires Reachable(s) && j in s.jobs && s.jobs[j].state.Running? && s.jobs[j].phase.Public?
    ensures s.jobs[j].kind.KindDropIndex?
  {
    ReachableInv(s);
    assert JobOk(s.tables, j, s.jobs[j]);
  }

  lemma ForgotKept(s: Store, s': Store, tabs: Tablets, j: nat, mine: set<TabletId>, t: TabletId)
    requires DrivenBy(s, s', j) && j in s.jobs && t !in mine
    requires s.jobs[j].phase.Backfilling? && s'.jobs[j].phase.Backfilling?
    requires s'.jobs[j].tabletProgress == s.jobs[j].tabletProgress - {t}
    ensures Kept(s, tabs, s', tabs, j, mine)
  {
  }

  /** Building a tablet that has not caught up. */
  lemma BuiltKept(s: Store, tabs: Tablets, tabs': Tablets, j: nat, mine: set<TabletId>, t: TabletId)
    requires !CaughtUpIn(s, j, t) && t in mine && tabs'.Keys == tabs.Keys
    requires forall q :: q in tabs && q != t ==> tabs'[q] == tabs[q]
    ensures Kept(s, tabs, s, tabs', j, mine)
  {
  }

  /** Every tablet an addition went through holds its build. */
  ghost predicate AllHold(s: Store, tabs: Tablets, j: nat, mine: set<TabletId>) {
    j in s.jobs && s.jobs[j].definition.AddIndex? ==>
      forall t :: t in mine && t in tabs && t in s.jobs[j].tabletProgress ==> s.jobs[j].definition.indexName in tabs[t].installed
  }

  lemma PublishedHolds(s: Store, tabs: Tablets, s': Store, tabs': Tablets, j: nat, mine: set<TabletId>)
    requires Reachable(s') && Kept(s, tabs, s', tabs', j, mine)
    requires j in s.jobs && s.jobs[j].tabletProgress == map[] && s'.jobs[j].phase.Public?
    ensures AllHold(s', tabs', j, mine)
  {
    ReachableInv(s');
    assert JobOk(s'.tables, j, s'.jobs[j]);
    forall t | t in mine && t in tabs' && t in s'.jobs[j].tabletProgress && s'.jobs[j].definition.AddIndex?
      ensures s'.jobs[j].definition.indexName in tabs'[t].installed
    {
      assert s'.jobs[j].tabletProgress[t].IsProven() && CaughtUpIn(s', j, t);
      assert Backed(s, tabs, j, t);
      assert Backed(s', tabs', j, t);
    }
  }

  /** The job failed and left nothing of its index behind. */
  ghost predicate Unwound(s: Store, tabs: Tablets, j: nat, mine: set<TabletId>) {
    && j in s.jobs && s.jobs[j].state.Failed?
    && (s.jobs[j].definition.AddIndex? ==>
          && s.jobs[j].IndexKey() !in s.indexes
          && Cleared(tabs, mine, s.jobs[j].definition.indexName))
  }

  ghost predicate Cleared(tabs: Tablets, mine: set<TabletId>, index: string) {
    forall t :: t in mine && t in tabs ==> !tabs[t].Holds(index)
  }

  /** The newest entry of the journal: the store refused a command of the driver's for this. */
  predicate LastRefusal(s: Store, e: DdlRejection) {
    s.journal != [] && s.journal[|s.journal| - 1] == JournalEntry(None, e)
  }

  /** What the outcome of a step or a drive says about the job. */
  ghost predicate Means(r: DriveStep, s: Store, tabs: Tablets, j: nat, mine: set<TabletId>) {
    match r
    case Parked => j in s.jobs && s.jobs[j].state.Paused?
    case Terminal => j in s.jobs && s.jobs[j].state.IsTerminal()
    case RolledBack => Unwound(s, tabs, j, mine)
    case Halted(ValidationFailed) => Unwound(s, tabs, j, mine)
    case Halted(NoJob) => j !in s.jobs
    case Halted(Rejected(e)) =>
      LastRefusal(s, e) && if e.SchemaVersionMismatch? then Unwound(s, tabs, j, mine) else j in s.jobs && s.jobs[j].state.Running?
    case _ => true
  }

  /** The job's table is still at the schema it was submitted under. */
  predicate Unmoved(s: Store, j: nat) {
    j in s.jobs && s.jobs[j].tableId in s.tables && s.tables[s.jobs[j].tableId].schemaVersion == s.jobs[j].sourceSchemaVersion
  }

  /** The store publishes a running, validating job exactly when its evidence is complete and its schema unmoved. */
  lemma CanPublish(s: Store, j: nat, at: Timestamp, ts: Timestamp)
    requires Reachable(s) && j in s.jobs && s.jobs[j].state.Running? && s.jobs[j].phase.Validating?
    ensures
      var r := DdlStoreSpec.Apply(s, PublishJob(j, at), None, ts);
      && r.Applied? && (r.result.Ok? <==> HasEvidence(s.jobs[j]) && Unmoved(s, j))
      && (r.result.Ok? ==> IsPublished(r.store, j))
  {
    ReachableInv(s);
    assert JobOk(s.tables, j, s.jobs[j]) && LinkOk(s.indexes, s.jobs[j]);
    PublishIff(s, j, at, None, ts);
  }

  /** Driving a job that is being cancelled unwinds it, or dies leaving it so. */
  predicate Unwinds(r: DriveStep, s: Store, s': Store, j: nat) {
    && s'.tables == s.tables
    && (r.RolledBack? || (r.Died? && j in s'.jobs && Unwinding(s'.jobs[j].state)))
  }

  // ----------------------------------------------------------------- measure

  function StateRank(state: JobState): nat {
    match state case Queued => 2 case Running => 1 case _ => 0
  }

  function PhaseRank(phase: DdlPhase): nat {
    match phase
    case Pending => 5 case WriteOnly => 4 case Backfilling => 3 case Validating => 2 case Public => 1 case Dropping => 0
  }

  /** The tablets still below the stage their phase needs. */
  function Unfinished(job: DdlJobRecord, mine: set<TabletId>): set<TabletId> {
    match job.phase
    case Backfilling => set t | t in mine && !(t in job.tabletProgress && job.tabletProgress[t].stage.Rank() >= CaughtUp.Rank())
    case Validating => set t | t in job.tabletProgress && job.tabletProgress[t].stage.Rank() < Validated.Rank()
    case _ => {}
  }

  /** Job state, then phase, then unfinished tablets. */
  predicate Closer(job: DdlJobRecord, job': DdlJobRecord, mine: set<TabletId>) {
    || StateRank(job'.state) < StateRank(job.state)
    || (StateRank(job'.state) == StateRank(job.state) && PhaseRank(job'.phase) < PhaseRank(job.phase))
    || (StateRank(job'.state) == StateRank(job.state) && PhaseRank(job'.phase) == PhaseRank(job.phase)
        && Unfinished(job', mine) < Unfinished(job, mine))
  }

  // ---------------------------------------------------------------- one step

  function EntryOf(job: DdlJobRecord, t: TabletId): TabletDdlProgress {
    if t in job.tabletProgress then job.tabletProgress[t] else RegisteredTablet(t)
  }

  /** A backfill step: exactly the table's tablets are on the map, and one more has caught up, or all had and the job moves on. */
  ghost predicate TookBackfill(job: DdlJobRecord, job': DdlJobRecord, mine: set<TabletId>) {
    && job'.tabletProgress.Keys == mine
    && if Unfinished(job, mine) == {} then job'.phase.Validating? && forall q :: q in mine ==> job'.tabletProgress[q] == EntryOf(job, q)
       else job'.phase.Backfilling? && exists t :: t in Unfinished(job, mine) && BackfilledOne(job, job', mine, t)
  }

  ghost predicate BackfilledOne(job: DdlJobRecord, job': DdlJobRecord, mine: set<TabletId>, t: TabletId) {
    forall q :: q in mine && q in job'.tabletProgress ==>
      if q == t then job'.tabletProgress[q].stage.CaughtUp? else job'.tabletProgress[q] == EntryOf(job, q)
  }

  /** A validation step: one more tablet is proven, or all were and the job is published. */
  ghost predicate TookValidate(job: DdlJobRecord, job': DdlJobRecord) {
    if Unfinished(job, {}) == {} then job'.state.Succeeded? && job'.phase.Public? && job'.tabletProgress == job.tabletProgress
    else job'.state.Running? && job'.phase.Validating? && exists t :: t in Unfinished(job, {}) && ValidatedOne(job, job', t)
  }

  ghost predicate ValidatedOne(job: DdlJobRecord, job': DdlJobRecord, t: TabletId) {
    OthersSame(job.tabletProgress, job'.tabletProgress, t) && t in job'.tabletProgress && job'.tabletProgress[t].IsProven()
  }

  /** What one action does to the job it advances: one edge of the job graph, one edge of the phase graph, or one tablet. */
  ghost predicate Took(job: DdlJobRecord, job': DdlJobRecord, mine: set<TabletId>) {
    match (job.state, job.phase)
    case (Queued, _) => job'.state.Running? && job'.phase == job.phase && job'.tabletProgress == job.tabletProgress
    case (Running, Pending) => job'.state.Running? && job'.phase.WriteOnly? && job'.tabletProgress == job.tabletProgress
    case (Running, WriteOnly) => job'.state.Running? && job'.phase.Backfilling? && job'.tabletProgress == job.tabletProgress
    case (Running, Backfilling) => job'.state.Running? && TookBackfill(job, job', mine)
    case (Running, Validating) => TookValidate(job, job')
    case (Running, Public) => job'.state.Running? && job'.phase.Dropping? && job'.tabletProgress == job.tabletProgress
    case _ => false
  }

  // ------------------------------------------------------------- the course

  /** An addition or alteration nothing stands in the way of: schema unmoved, tablets to prove, and no proof claimed that was not given. */
  ghost predicate OnCourse(s: Store, j: nat, mine: set<TabletId>) {
    && j in s.jobs
    && var job := s.jobs[j];
       && !job.kind.KindDropIndex? && job.tableId in s.tables && s.tables[job.tableId].schemaVersion == job.sourceSchemaVersion
       && (job.state.Queued? || job.state.Running?) && Honest(job)
       && match job.phase
          case Validating => job.tabletProgress != map[] && forall t :: t in job.tabletProgress ==> job.tabletProgress[t].stage.Rank() >= CaughtUp.Rank()
          case _ => job.phase.IsHidden() && mine != {}
  }

  predicate Honest(job: DdlJobRecord) {
    forall t :: t in job.tabletProgress && job.tabletProgress[t].stage.Validated? ==> job.tabletProgress[t].IsProven()
  }

  predicate IsPublished(s: Store, j: nat) {
    j in s.jobs && s.jobs[j].state.Succeeded? && s.jobs[j].phase.Public?
  }

  /** Nothing to do for the driver: finished, or paused. */
  predicate AtRest(s: Store, j: nat) {
    j in s.jobs && (s.jobs[j].state.IsTerminal() || s.jobs[j].state.Paused?)
  }

  /** Where an action, or a drive, may leave such a job: still such a job, published, failed in validation, or with a dead driver. */
  ghost predicate CourseEnds(r: DriveStep, s: Store, j: nat, mine: set<TabletId>) {
    match r
    case Advanced => OnCourse(s, j, mine) || IsPublished(s, j)
    case Terminal => IsPublished(s, j)
    case Halted(ValidationFailed) => true
    case Died => true
    case _ => false
  }

  /** Each advance of such a job leaves it such a job, or published. */
  lemma CourseKept(s: Store, s': Store, j: nat, mine: set<TabletId>)
    requires OnCourse(s, j, mine) && DrivenBy(s, s', j) && Took(s.jobs[j], s'.jobs[j], mine)
    ensures OnCourse(s', j, mine) || IsPublished(s', j)
  {
    var job, job' := s.jobs[j], s'.jobs[j];
    if job.state.Running? && job.phase.Backfilling? {
      BackfillKeepsCourse(job, job', mine);
    } else if job.state.Running? && job.phase.Validating? {
      ValidateKeepsCourse(job, job');
    }
  }

  lemma BackfillKeepsCourse(job: DdlJobRecord, job': DdlJobRecord, mine: set<TabletId>)
    requires TookBackfill(job, job', mine) && job.phase.Backfilling? && Honest(job) && mine != {}
    ensures Honest(job') && job'.tabletProgress != map[]
    ensures job'.phase.Validating? ==> forall t :: t in job'.tabletProgress ==> job'.tabletProgress[t].stage.Rank() >= CaughtUp.Rank()
  {
    var t :| t in mine;
    assert t in job'.tabletProgress;
    if Unfinished(job, mine) == {} {
      forall q | q in job'.tabletProgress ensures job'.tabletProgress[q].stage.Rank() >= CaughtUp.Rank() {
        assert q !in Unfinished(job, mine);
      }
    }
  }

  lemma ValidateKeepsCourse(job: DdlJobRecord, job': DdlJobRecord)
    requires TookValidate(job, job') && Honest(job) && job.tabletProgress != map[]
    requires forall t :: t in job.tabletProgress ==> job.tabletProgress[t].stage.Rank() >= CaughtUp.Rank()
    ensures Honest(job') && job'.tabletProgress != map[]
    ensures forall t :: t in job'.tabletProgress ==> job'.tabletProgress[t].stage.Rank() >= CaughtUp.Rank()
  {
  }

  /** With nothing unfinished, an honest job has its evidence. */
  lemma FinishedIsProven(job: DdlJobRecord)
    requires job.phase.Validating? && Honest(job) && job.tabletProgress != map[] && Unfinished(job, {}) == {}
    ensures HasEvidence(job)
  {
    forall t | t in job.tabletProgress ensures job.tabletProgress[t].IsProven() {
      assert t !in Unfinished(job, {});
    }
  }

  lemma ProvenIsFinished(job: DdlJobRecord)
    requires job.phase.Validating? && HasEvidence(job)
    ensures Unfinished(job, {}) == {}
  {
  }

  class DdlDriver {
    const store: DdlJobStore
    const tableOf: map<TabletId, TableId>
    /** Whether the process may die. */
    const mortal: bool
    var tablets: Tablets

    constructor (store: DdlJobStore, tableOf: map<TabletId, TableId>, tablets: Tablets, mortal: bool)
      requires Reachable(store.View()) && tablets.Keys == tableOf.Keys
      ensures this.store == store && this.tableOf == tableOf && this.tablets == tablets && this.mortal == mortal && Valid()
    {
      this.store, this.tableOf, this.tablets, this.mortal := store, tableOf, tablets, mortal;
    }

    ghost predicate Valid()
      reads this, store
    {
      Reachable(store.View()) && tablets.Keys == tableOf.Keys
    }

    function TabletsOf(table: TableId): set<TabletId> {
      set t | t in tableOf && tableOf[t] == table
    }

    ghost function Mine(s: Store, j: nat): set<TabletId> {
      if j in s.jobs then TabletsOf(s.jobs[j].tableId) else {}
    }

    // -------------------------------------------------------- store helpers

    /** Apply one command of the driver's to the store. */
    method Issue(command: DdlCommand, ts: Timestamp) returns (r: ApplyResult)
      requires Reachable(store.View()) && WellFormed(store.View(), command)
      modifies store
      ensures Reachable(store.View())
      ensures Applied(store.View(), r) == DdlStoreSpec.Apply(old(store.View()), command, None, ts)
      ensures r.Ok? ==> store.rejections == old(store.rejections)
      ensures r.Err? ==> LastRefusal(store.View(), r.reason)
    {
      ReachableInv(store.View());
      ReadyToDispatch(store.View(), command, None, ts);
      r := store.Apply(command, None, ts);
      ReachableStep(old(store.View()), Call(command, None, ts), store.View());
      VersionTicks(old(store.View()), command, None, ts);
    }

    /** A state change, expecting the version the job is at or none. */
    method SetState(j: nat, state: JobState, error: Option<string>, expected: Option<MetadataVersion> := None) returns (r: ApplyResult)
      requires Reachable(store.View()) && (expected.Some? ==> j in store.jobs && expected.value == store.jobs[j].metadataVersion)
      modifies store
      ensures Reachable(store.View()) && DrivenBy(old(store.View()), store.View(), j)
      ensures store.indexes == old(store.indexes) && store.tables == old(store.tables)
      ensures r.Err? ==> SameData(old(store.View()), store.View())
      ensures r.Ok? <==> j in old(store.jobs) && !old(store.jobs)[j].state.IsTerminal()
                         && (old(store.jobs)[j].state == state || old(store.jobs)[j].state.CanTransition(state))
      ensures r.Ok? ==> store.jobs[j].state == state && store.jobs[j].phase == old(store.jobs)[j].phase
      ensures r.Ok? ==> store.jobs[j].tabletProgress == old(store.jobs)[j].tabletProgress && store.rejections == old(store.rejections)
    {
      var at: Timestamp, ts: Timestamp := *, *;
      r := Issue(SetJobState(j, state, at, error, expected), ts);
      StateEffect(old(store.View()), j, state, at, error, expected, ts, store.View(), r);
    }

    method Advance(j: nat, to: DdlPhase, pin: Option<Timestamp>) returns (r: ApplyResult)
      requires Reachable(store.View()) && j in store.jobs && store.jobs[j].state.Running? && store.jobs[j].phase.CanTransition(to)
      requires !to.Public? && (to.Backfilling? ==> pin.Some?)
      modifies store
      ensures Reachable(store.View()) && DrivenBy(old(store.View()), store.View(), j) && r.Ok?
      ensures store.jobs[j].phase == to && store.jobs[j].state == old(store.jobs)[j].state
      ensures store.jobs[j].tabletProgress == old(store.jobs)[j].tabletProgress
    {
      var ts: Timestamp := *;
      r := Issue(AdvancePhase(j, to, pin, None), ts);
      AdvanceEffect(old(store.View()), j, to, pin, ts, store.View(), r);
    }

    method UpdateProgress(j: nat, p: TabletDdlProgress) returns (r: ApplyResult)
      requires Reachable(store.View()) && j in store.jobs && store.jobs[j].phase.Backfilling? && !Regresses(store.jobs[j], p)
      modifies store
      ensures Reachable(store.View()) && DrivenBy(old(store.View()), store.View(), j) && r.Ok?
      ensures store.indexes == old(store.indexes)
      ensures store.jobs[j].phase == old(store.jobs)[j].phase && store.jobs[j].state == old(store.jobs)[j].state
      ensures store.jobs[j].tabletProgress == old(store.jobs)[j].tabletProgress[p.tabletId := p]
    {
      var ts: Timestamp := *;
      r := Issue(UpdateTabletProgress(j, p), ts);
      UpdateEffect(old(store.View()), j, p, ts, store.View(), r);
    }

    method Forget(j: nat, t: TabletId)
      requires Reachable(store.View()) && j in store.jobs && store.jobs[j].phase.Backfilling?
      modifies store
      ensures Reachable(store.View()) && DrivenBy(old(store.View()), store.View(), j)
      ensures store.jobs[j].phase == old(store.jobs)[j].phase && store.jobs[j].state == old(store.jobs)[j].state
      ensures store.jobs[j].tabletProgress == old(store.jobs)[j].tabletProgress - {t}
    {
      var ts: Timestamp := *;
      var r := Issue(ForgetTabletProgress(j, t), ts);
      ForgetEffect(old(store.View()), j, t, ts, store.View(), r);
    }

    // -------------------------------------------------------------- unwind

    /** Drop the generations of every tablet of the table; dying in between leaves some dropped. */
    method DropGenerations(mine: set<TabletId>, index: string) returns (died: bool)
      requires mine <= tablets.Keys
      modifies `tablets
      ensures tablets.Keys == old(tablets).Keys
      ensures forall t :: t in tablets ==> tablets[t].builds == old(tablets)[t].builds
      ensures forall t :: t in tablets && t !in mine ==> tablets[t] == old(tablets)[t]
      ensures !died ==> Cleared(tablets, mine, index)
      ensures died ==> mortal
    {
      var pending := mine;
      while pending != {}
        invariant pending <= mine && tablets.Keys == old(tablets).Keys
        invariant forall t :: t in tablets ==> tablets[t].builds == old(tablets)[t].builds
        invariant forall t :: t in tablets && t !in mine ==> tablets[t] == old(tablets)[t]
        invariant Cleared(tablets, mine - pending, index)
      {
        died := Dies(mortal);
        if died {
          return;
        }
        var t :| t in pending;
        var held := tablets[t];
        tablets := tablets[t := held.(staged := held.staged - {index}, installed := held.installed - {index})];
        pending := pending - {t};
      }
      assert mine - pending == mine;
      died := false;
    }

    /**
     * Roll the job back: hidden generations dropped, the record removed, the job failed. A driver
     * that dies inside leaves a job its successor will roll back again.
     */
    method Rollback(j: nat, reason: string) returns (r: DriveStep)
      requires Valid() && j in store.jobs
      requires store.jobs[j].state.Running? || store.jobs[j].state.Cancelling? || store.jobs[j].state.RollingBack?
      modifies store, `tablets
      ensures Valid() && Kept(old(store.View()), old(tablets), store.View(), tablets, j, Mine(old(store.View()), j))
      ensures store.tables == old(store.tables)
      ensures (r.RolledBack? || (r.Died? && mortal)) && store.rejections == old(store.rejections)
      ensures r.RolledBack? ==> Unwound(store.View(), tablets, j, Mine(old(store.View()), j))
      ensures r.Died? ==> store.jobs[j].state == old(store.jobs)[j].state || store.jobs[j].state.RollingBack?
    {
      if store.jobs[j].state.RollingBack? {
        r := FinishRollback(j, reason);
        return;
      }
      var dies := Dies(mortal);
      if dies {
        QuietKept(store.View(), store.View(), tablets, j, Mine(store.View(), j));
        return Died;
      }
      var marked := SetState(j, RollingBack, Some(reason));
      ghost var mid := store.View();
      QuietKept(old(store.View()), mid, tablets, j, Mine(mid, j));
      r := FinishRollback(j, reason);
      KeptTrans(old(store.View()), old(tablets), mid, old(tablets), store.View(), tablets, j, Mine(mid, j));
    }

    method FinishRollback(j: nat, reason: string) returns (r: DriveStep)
      requires Valid() && j in store.jobs && store.jobs[j].state.RollingBack?
      modifies store, `tablets
      ensures Valid() && Kept(old(store.View()), old(tablets), store.View(), tablets, j, Mine(old(store.View()), j))
      ensures store.tables == old(store.tables)
      ensures (r.RolledBack? || (r.Died? && mortal)) && store.rejections == old(store.rejections)
      ensures r.RolledBack? ==> Unwound(store.View(), tablets, j, Mine(old(store.View()), j))
      ensures r.Died? ==> store.jobs[j].state.RollingBack?
    {
      ghost var mine := Mine(store.View(), j);
      QuietKept(store.View(), store.View(), tablets, j, mine);
      if store.jobs[j].definition.AddIndex? {
        var died := Unhide(j);
        if died {
          return Died;
        }
      }
      var dies := Dies(mortal);
      if dies {
        return Died;
      }
      ghost var mid := store.View();
      Fail(j, reason);
      KeptTrans(old(store.View()), old(tablets), mid, tablets, store.View(), tablets, j, mine);
      r := RolledBack;
    }

    method Fail(j: nat, reason: string)
      requires Valid() && j in store.jobs && store.jobs[j].state.RollingBack?
      modifies store
      ensures Valid() && Kept(old(store.View()), tablets, store.View(), tablets, j, Mine(old(store.View()), j))
      ensures store.jobs[j].state.Failed? && store.indexes == old(store.indexes) && store.tables == old(store.tables)
      ensures store.rejections == old(store.rejections)
    {
      var failed := SetState(j, Failed, Some(reason));
      QuietKept(old(store.View()), store.View(), tablets, j, Mine(old(store.View()), j));
    }

    /** The index half of the unwind. */
    method Unhide(j: nat) returns (died: bool)
      requires Valid() && j in store.jobs && store.jobs[j].state.RollingBack? && store.jobs[j].definition.AddIndex?
      modifies store, `tablets
      ensures Valid() && Kept(old(store.View()), old(tablets), store.View(), tablets, j, Mine(old(store.View()), j))
      ensures store.jobs[j].state.RollingBack? && store.tables == old(store.tables) && store.rejections == old(store.rejections)
      ensures died ==> mortal
      ensures !died ==> store.jobs[j].IndexKey() !in store.indexes
      ensures !died ==> Cleared(tablets, Mine(old(store.View()), j), store.jobs[j].definition.indexName)
    {
      died := DropGenerations(TabletsOf(store.jobs[j].tableId), store.jobs[j].definition.indexName);
      if died {
        return;
      }
      died := Dies(mortal);
      if died {
        return;
      }
      ReachableInv(store.View());
      RemovalWellFormed(store.View(), j);
      var ts: Timestamp := *;
      ghost var before := store.View();
      var removed := Issue(RemoveIndexRecord(j), ts);
      RemoveEffect(before, j, ts, store.View(), removed);
    }

    // ---------------------------------------------------------- backfilling

    /** Record one tablet's progress, never below what is recorded. */
    method Record(j: nat, p: TabletDdlProgress)
      requires Valid() && j in store.jobs && store.jobs[j].phase.Backfilling? && !Regresses(store.jobs[j], p)
      requires Holding(store.jobs[j], tablets, p)
      modifies store
      ensures Valid() && Kept(old(store.View()), tablets, store.View(), tablets, j, Mine(old(store.View()), j))
      ensures store.jobs[j].state == old(store.jobs)[j].state && store.jobs[j].phase.Backfilling?
      ensures store.jobs[j].tabletProgress == old(store.jobs)[j].tabletProgress[p.tabletId := p]
    {
      var recorded := UpdateProgress(j, p);
      AddedKept(old(store.View()), store.View(), tablets, j, Mine(old(store.View()), j), p);
    }

    method Register(j: nat, t: TabletId, ghost start: Store, ghost mine: set<TabletId>)
      requires Valid() && j in store.jobs && store.jobs[j].phase.Backfilling? && t !in store.jobs[j].tabletProgress
      requires Kept(start, tablets, store.View(), tablets, j, mine) && Mine(store.View(), j) == mine
      modifies store
      ensures Valid() && Kept(start, tablets, store.View(), tablets, j, mine) && Mine(store.View(), j) == mine
      ensures j in store.jobs && store.jobs[j].state == old(store.jobs)[j].state && store.jobs[j].phase.Backfilling?
      ensures store.jobs[j].tabletProgress == old(store.jobs)[j].tabletProgress[t := RegisteredTablet(t)]
    {
      Record(j, RegisteredTablet(t));
      KeptTrans(start, tablets, old(store.View()), tablets, store.View(), tablets, j, mine);
    }

    /** Give every tablet of the table a progress entry. */
    method RegisterTablets(j: nat) returns (died: bool)
      requires Valid() && j in store.jobs && store.jobs[j].phase.Backfilling?
      modifies store
      ensures Valid() && Kept(old(store.View()), tablets, store.View(), tablets, j, Mine(old(store.View()), j))
      ensures store.jobs[j].state == old(store.jobs)[j].state && store.jobs[j].phase.Backfilling?
      ensures OnlyRegistered(old(store.jobs)[j].tabletProgress, store.jobs[j].tabletProgress)
      ensures if died then mortal else Mine(old(store.View()), j) <= store.jobs[j].tabletProgress.Keys
    {
      ghost var mine := Mine(store.View(), j);
      var pending := TabletsOf(store.jobs[j].tableId) - store.jobs[j].tabletProgress.Keys;
      QuietKept(store.View(), store.View(), tablets, j, mine);
      while pending != {}
        invariant Valid() && j in store.jobs && Mine(store.View(), j) == mine
        invariant forall t :: t in pending ==> t !in store.jobs[j].tabletProgress
        invariant mine <= store.jobs[j].tabletProgress.Keys + pending
        invariant Kept(old(store.View()), tablets, store.View(), tablets, j, mine)
        invariant store.jobs[j].state == old(store.jobs)[j].state && store.jobs[j].phase.Backfilling?
        invariant OnlyRegistered(old(store.jobs)[j].tabletProgress, store.jobs[j].tabletProgress)
      {
        died := Dies(mortal);
        if died {
          return;
        }
        var t :| t in pending;
        RegisteredMore(old(store.jobs)[j].tabletProgress, store.jobs[j].tabletProgress, t);
        Register(j, t, old(store.View()), mine);
        pending := pending - {t};
      }
      died := false;
    }

    /** Forget the tablets that left the table. */
    method ForgetDeparted(j: nat) returns (died: bool)
      requires Valid() && j in store.jobs && store.jobs[j].phase.Backfilling?
      modifies store
      ensures Valid() && Kept(old(store.View()), tablets, store.View(), tablets, j, Mine(old(store.View()), j))
      ensures store.jobs[j].state == old(store.jobs)[j].state && store.jobs[j].phase.Backfilling?
      ensures if died then mortal else OnlyMine(old(store.jobs)[j].tabletProgress, store.jobs[j].tabletProgress, Mine(old(store.View()), j))
    {
      ghost var mine := Mine(store.View(), j);
      var pending := store.jobs[j].tabletProgress.Keys - TabletsOf(store.jobs[j].tableId);
      QuietKept(store.View(), store.View(), tablets, j, mine);
      while pending != {}
        invariant Valid() && j in store.jobs && pending !! mine
        invariant store.jobs[j].tabletProgress.Keys <= mine + pending
        invariant ForgotOthers(old(store.jobs)[j].tabletProgress, store.jobs[j].tabletProgress, mine)
        invariant Kept(old(store.View()), tablets, store.View(), tablets, j, mine)
        invariant store.jobs[j].state == old(store.jobs)[j].state && store.jobs[j].phase.Backfilling?
      {
        died := Dies(mortal);
        if died {
          return;
        }
        var t :| t in pending;
        ghost var mid := store.View();
        Forget(j, t);
        ForgotOne(old(store.jobs)[j].tabletProgress, mid.jobs[j].tabletProgress, mine, t);
        ForgotKept(mid, store.View(), tablets, j, mine, t);
        KeptTrans(old(store.View()), tablets, mid, tablets, store.View(), tablets, j, mine);
        pending := pending - {t};
      }
      died := false;
    }

    /** One tablet's hidden build: begun, staged and installed, dying anywhere. */
    method BackfillTablet(t: TabletId, definition: DdlDefinition) returns (died: bool)
      requires t in tablets
      modifies `tablets
      ensures tablets.Keys == old(tablets).Keys
      ensures forall q :: q in tablets && q != t ==> tablets[q] == old(tablets)[q]
      ensures !died && definition.AddIndex? ==> definition.indexName in tablets[t].installed && definition.indexName !in tablets[t].staged
      ensures !died && definition.AddIndex? ==> tablets[t].builds == old(tablets)[t].builds + 1
      ensures died ==> mortal
    {
      died := false;
      if definition.AddIndex? {
        var index, held := definition.indexName, tablets[t];
        tablets := tablets[t := held.(staged := held.staged + {index}, builds := held.builds + 1)];
        died := Dies(mortal);
        if died {
          return;
        }
        tablets := tablets[t := tablets[t].(staged := held.staged - {index}, installed := held.installed + {index})];
        died := Dies(mortal);
        if died {
          return;
        }
      }
    }

    /** Mark, build and record one tablet below CaughtUp. */
    method BuildTablet(j: nat, t: TabletId) returns (died: bool)
      requires Valid() && j in store.jobs && store.jobs[j].phase.Backfilling?
      requires t in Mine(store.View(), j) && t in Unfinished(store.jobs[j], Mine(store.View(), j))
      modifies store, `tablets
      ensures Valid() && Kept(old(store.View()), old(tablets), store.View(), tablets, j, Mine(old(store.View()), j))
      ensures store.jobs[j].state == old(store.jobs)[j].state && store.jobs[j].phase.Backfilling?
      ensures !died ==> OthersSame(old(store.jobs)[j].tabletProgress, store.jobs[j].tabletProgress, t) && CaughtUpIn(store.View(), j, t)
      ensures if died then mortal else store.jobs[j].tabletProgress[t].stage.CaughtUp?
    {
      ghost var mine := Mine(store.View(), j);
      died := MarkTablet(j, t);
      if died {
        return;
      }
      ghost var mid := store.View();
      died := BackfillTablet(t, store.jobs[j].definition);
      BuiltKept(mid, old(tablets), tablets, j, mine, t);
      KeptTrans(old(store.View()), old(tablets), mid, old(tablets), mid, tablets, j, mine);
      if died {
        return;
      }
      var scanned: nat, watermark: Timestamp := *, *;
      var cursor := TabletDdlProgress(t, CaughtUp, scanned, Some(watermark), None);
      RecordedOne(old(store.jobs)[j].tabletProgress, store.jobs[j].tabletProgress, cursor);
      Record(j, cursor);
      KeptTrans(old(store.View()), old(tablets), mid, tablets, store.View(), tablets, j, mine);
    }

    /** Record that a tablet's build is under way. */
    method MarkTablet(j: nat, t: TabletId) returns (died: bool)
      requires Valid() && j in store.jobs && store.jobs[j].phase.Backfilling?
      requires t in Unfinished(store.jobs[j], Mine(store.View(), j))
      modifies store
      ensures Valid() && Kept(old(store.View()), tablets, store.View(), tablets, j, Mine(old(store.View()), j))
      ensures store.jobs[j].state == old(store.jobs)[j].state && store.jobs[j].phase.Backfilling?
      ensures OthersSame(old(store.jobs)[j].tabletProgress, store.jobs[j].tabletProgress, t)
      ensures t in store.jobs[j].tabletProgress ==> store.jobs[j].tabletProgress[t].stage.Rank() < CaughtUp.Rank()
      ensures died ==> mortal
    {
      died := false;
      QuietKept(store.View(), store.View(), tablets, j, Mine(store.View(), j));
      var progress := store.jobs[j].tabletProgress;
      if t !in progress || progress[t].stage.Registered? {
        died := Dies(mortal);
        if died {
          return;
        }
        var marker := RegisteredTablet(t).(stage := Building);
        RecordedOne(progress, progress, marker);
        Record(j, marker);
        assert store.jobs[j].tabletProgress[t] == marker;
      }
    }

    /** Every tablet of the table on the map, and no other. */
    method PrepareTablets(j: nat) returns (died: bool)
      requires Valid() && j in store.jobs && store.jobs[j].phase.Backfilling?
      modifies store
      ensures Valid() && Kept(old(store.View()), tablets, store.View(), tablets, j, Mine(old(store.View()), j))
      ensures store.jobs[j].state == old(store.jobs)[j].state && store.jobs[j].phase.Backfilling?
      ensures died ==> mortal
      ensures !died ==> IsPrepared(old(store.jobs)[j], store.jobs[j], Mine(old(store.View()), j))
      ensures !died ==> Unfinished(store.jobs[j], Mine(old(store.View()), j)) == Unfinished(old(store.jobs)[j], Mine(old(store.View()), j))
    {
      ghost var mine := Mine(store.View(), j);
      died := RegisterTablets(j);
      if died {
        return;
      }
      ghost var registered := store.View();
      died := ForgetDeparted(j);
      KeptTrans(old(store.View()), tablets, registered, tablets, store.View(), tablets, j, mine);
      if !died {
        Prepared(old(store.jobs)[j], registered.jobs[j], store.jobs[j], mine);
      }
    }

    method StepBackfilling(j: nat) returns (r: DriveStep)
      requires Valid() && j in store.jobs && store.jobs[j].state.Running? && store.jobs[j].phase.Backfilling?
      modifies store, `tablets
      ensures Valid() && Kept(old(store.View()), old(tablets), store.View(), tablets, j, Mine(old(store.View()), j))
      ensures store.jobs[j].state.Running? && (r.Advanced? || (r.Died? && mortal))
      ensures r.Advanced? ==> TookBackfill(old(store.jobs)[j], store.jobs[j], Mine(old(store.View()), j))
      ensures r.Advanced? ==> Closer(old(store.jobs)[j], store.jobs[j], Mine(old(store.View()), j))
    {
      ghost var mine := Mine(store.View(), j);
      var died := PrepareTablets(j);
      if died {
        return Died;
      }
      ghost var mid := store.View();
      var open := Unfinished(store.jobs[j], TabletsOf(store.jobs[j].tableId));
      if open != {} {
        var t :| t in open;
        died := BuildTablet(j, t);
        KeptTrans(old(store.View()), old(tablets), mid, old(tablets), store.View(), tablets, j, mine);
        if died {
          return Died;
        }
        BuiltUnfinished(mid.jobs[j], store.jobs[j], mine, t);
        BuiltTook(old(store.jobs)[j], mid.jobs[j], store.jobs[j], mine, t);
        return Advanced;
      }
      var advanced := Advance(j, Validating, None);
      QuietKept(mid, store.View(), tablets, j, mine);
      KeptTrans(old(store.View()), tablets, mid, tablets, store.View(), tablets, j, mine);
      r := Advanced;
    }

    // ----------------------------------------------------- validate, publish

    method Report(j: nat, report: TabletValidationReport) returns (r: ApplyResult)
      requires Valid() && j in store.jobs && store.jobs[j].phase.Validating? && report.tabletId in store.jobs[j].tabletProgress
      modifies store
      ensures Valid() && Kept(old(store.View()), tablets, store.View(), tablets, j, Mine(old(store.View()), j))
      ensures store.tables == old(store.tables)
      ensures store.jobs[j].state == old(store.jobs)[j].state && store.jobs[j].phase.Validating?
      ensures OthersSame(old(store.jobs)[j].tabletProgress, store.jobs[j].tabletProgress, report.tabletId)
      ensures r.Err? ==> r.reason.TabletProgressRegression?
      ensures r.Ok? && report.Passed() ==> report.tabletId in store.jobs[j].tabletProgress
      ensures r.Ok? && report.Passed() ==> store.jobs[j].tabletProgress[report.tabletId].stage.Validated?
      ensures r.Ok? <==> old(store.jobs)[j].tabletProgress[report.tabletId].stage.Rank() >= CaughtUp.Rank()
      ensures r.Ok? && report.Passed() && !old(store.jobs)[j].tabletProgress[report.tabletId].stage.Validated? ==>
        store.jobs[j].tabletProgress[report.tabletId].IsProven()
      ensures r.Err? ==> LastRefusal(store.View(), r.reason)
    {
      var ts: Timestamp := *;
      r := Issue(ReportTabletValidation(j, report), ts);
      ReportIff(old(store.View()), j, report, None, ts);
      ReportEffect(old(store.View()), j, report, ts, store.View(), r);
      ReportKept(old(store.View()), store.View(), tablets, j, Mine(old(store.View()), j), report.tabletId);
    }

    method StepValidating(j: nat) returns (r: DriveStep)
      requires Valid() && j in store.jobs && store.jobs[j].state.Running? && store.jobs[j].phase.Validating?
      modifies store, `tablets
      ensures Valid() && Kept(old(store.View()), old(tablets), store.View(), tablets, j, Mine(old(store.View()), j))
      ensures r.Advanced? ==> Closer(old(store.jobs)[j], store.jobs[j], Mine(old(store.View()), j))
      ensures r.Advanced? || (r.Died? && mortal) || (r.Halted? && !r.why.NoJob?)
      ensures Resumable(store.jobs[j].state) || Unwound(store.View(), tablets, j, Mine(old(store.View()), j)) || store.jobs[j].state.Succeeded?
      ensures Means(r, store.View(), tablets, j, Mine(old(store.View()), j))
      ensures r.Advanced? ==> TookValidate(old(store.jobs)[j], store.jobs[j])
      ensures old(HasEvidence(store.jobs[j]) && Unmoved(store.View(), j)) ==> r.Advanced? && IsPublished(store.View(), j)
      ensures old(OnCourse(store.View(), j, {})) ==> r.Advanced? || r.Died? || r == Halted(ValidationFailed)
    {
      if HasEvidence(store.jobs[j]) {
        ProvenIsFinished(store.jobs[j]);
      }
      var open := Unfinished(store.jobs[j], {});
      if open == {} {
        if OnCourse(store.View(), j, {}) {
          FinishedIsProven(store.jobs[j]);
        }
        r := Publish(j);
        return;
      }
      var t :| t in open;
      var report: TabletValidationReport := *;
      report := report.(tabletId := t);
      var reported := Report(j, report);
      match reported {
        case Err(e) =>
          return Halted(Rejected(e));
        case Ok =>
          if report.Passed() {
            ValidatedUnfinished(old(store.jobs)[j], store.jobs[j], Mine(old(store.View()), j), t);
            assert ValidatedOne(old(store.jobs)[j], store.jobs[j], t);
            return Advanced;
          }
          ghost var mid := store.View();
          var unwound := Rollback(j, "validation failed");
          KeptTrans(old(store.View()), old(tablets), mid, old(tablets), store.View(), tablets, j, Mine(mid, j));
          r := if unwound.Died? then Died else Halted(ValidationFailed);
      }
    }

    /** One command flips the element Public; a moved schema unwinds the job instead. */
    method Publish(j: nat) returns (r: DriveStep)
      requires Valid() && j in store.jobs && store.jobs[j].state.Running? && store.jobs[j].phase.Validating?
      modifies store, `tablets
      ensures Valid() && Kept(old(store.View()), old(tablets), store.View(), tablets, j, Mine(old(store.View()), j))
      ensures r.Advanced? || (r.Died? && mortal) || (r.Halted? && !r.why.NoJob?)
      ensures r.Advanced? ==> IsPublished(store.View(), j) && store.jobs[j].tabletProgress == old(store.jobs)[j].tabletProgress
      ensures r.Advanced? <==> old(HasEvidence(store.jobs[j]) && Unmoved(store.View(), j))
      ensures Resumable(store.jobs[j].state) || Unwound(store.View(), tablets, j, Mine(old(store.View()), j)) || store.jobs[j].state.Succeeded?
      ensures Means(r, store.View(), tablets, j, Mine(old(store.View()), j))
      ensures r != Halted(ValidationFailed)
    {
      ghost var mine := Mine(store.View(), j);
      var at: Timestamp, ts: Timestamp := *, *;
      CanPublish(store.View(), j, at, ts);
      var published := Issue(PublishJob(j, at), ts);
      ghost var mid := store.View();
      PublishEffect(old(store.View()), j, at, ts, mid, published);
      QuietKept(old(store.View()), mid, tablets, j, mine);
      match published {
        case Ok => r := Advanced;
        case Err(e) =>
          if !e.SchemaVersionMismatch? {
            return Halted(Rejected(e));
          }
          var unwound := Rollback(j, "schema moved");
          KeptTrans(old(store.View()), old(tablets), mid, old(tablets), store.View(), tablets, j, mine);
          r := if unwound.Died? then Died else Halted(Rejected(e));
      }
    }

    // ------------------------------------------------------------- one step

    /** One protocol action of one job. */
    method StepJob(j: nat) returns (r: DriveStep)
      requires Valid()
      modifies store, `tablets
      ensures Valid() && Kept(old(store.View()), old(tablets), store.View(), tablets, j, Mine(old(store.View()), j))
      ensures j !in old(store.jobs) ==> r == Halted(NoJob)
      ensures Means(r, store.View(), tablets, j, Mine(old(store.View()), j))
      ensures r.Advanced? ==> Closer(old(store.jobs)[j], store.jobs[j], Mine(old(store.View()), j))
      ensures r.Advanced? ==> Took(old(store.jobs)[j], store.jobs[j], Mine(old(store.View()), j))
      ensures r.Died? ==> mortal
      ensures j in old(store.jobs) && Unwinding(old(store.jobs)[j].state) ==> Unwinds(r, old(store.View()), store.View(), j)
      ensures old(OnCourse(store.View(), j, Mine(store.View(), j))) ==> r.Advanced? || r.Died? || r == Halted(ValidationFailed)
      ensures old(AtRest(store.View(), j)) ==> !r.Advanced? && store.View() == old(store.View()) && tablets == old(tablets)
    {
      if j !in store.jobs {
        QuietKept(store.View(), store.View(), tablets, j, {});
        return Halted(NoJob);
      }
      QuietKept(store.View(), store.View(), tablets, j, Mine(store.View(), j));
      match store.jobs[j].state
      case Queued =>
        var admitted := SetState(j, Running, None);
        QuietKept(old(store.View()), store.View(), tablets, j, Mine(old(store.View()), j));
        r := Advanced;
      case Paused => r := Parked;
      case Failed => r := Terminal;
      case Succeeded => r := Terminal;
      case Running => r := StepRunning(j);
      case Cancelling => r := Rollback(j, "cancelled by operator");
      case RollingBack => r := Rollback(j, "cancelled by operator");
    }

    method StepRunning(j: nat) returns (r: DriveStep)
      requires Valid() && j in store.jobs && store.jobs[j].state.Running?
      modifies store, `tablets
      ensures Valid() && Kept(old(store.View()), old(tablets), store.View(), tablets, j, Mine(old(store.View()), j))
      ensures r.Advanced? || (r.Died? && mortal) || r.Terminal? || (r.Halted? && !r.why.NoJob?)
      ensures r.Terminal? ==> store.jobs[j].state.Succeeded?
      ensures r.Advanced? ==> Took(old(store.jobs)[j], store.jobs[j], Mine(old(store.View()), j))
      ensures old(OnCourse(store.View(), j, Mine(store.View(), j))) ==> r.Advanced? || r.Died? || r == Halted(ValidationFailed)
      ensures Means(r, store.View(), tablets, j, Mine(old(store.View()), j))
      ensures r.Advanced? ==> Closer(old(store.jobs)[j], store.jobs[j], Mine(old(store.View()), j))
    {
      ghost var mine := Mine(store.View(), j);
      match store.jobs[j].phase
      case Pending =>
        var advanced := Advance(j, WriteOnly, None);
        QuietKept(old(store.View()), store.View(), tablets, j, mine);
        r := Advanced;
      case WriteOnly =>
        var pin: Timestamp := *;
        var advanced := Advance(j, Backfilling, Some(pin));
        QuietKept(old(store.View()), store.View(), tablets, j, mine);
        r := Advanced;
      case Backfilling => r := StepBackfilling(j);
      case Validating => r := StepValidating(j);
      case Public =>
        RunningPhase(store.View(), j);
        var advanced := Advance(j, Dropping, None);
        QuietKept(old(store.View()), store.View(), tablets, j, mine);
        r := Advanced;
      case Dropping =>
        var done := SetState(j, Succeeded, None);
        QuietKept(old(store.View()), store.View(), tablets, j, mine);
        r := Terminal;
    }

    // ------------------------------------------------------------ whole runs

    /** One action, and where it leaves a job nothing stands in the way of. */
    method TakeStep(j: nat) returns (r: DriveStep)
      requires Valid()
      modifies store, `tablets
      ensures Valid() && Kept(old(store.View()), old(tablets), store.View(), tablets, j, Mine(old(store.View()), j))
      ensures (j !in old(store.jobs) ==> r == Halted(NoJob)) && (r.Died? ==> mortal)
      ensures Means(r, store.View(), tablets, j, Mine(old(store.View()), j))
      ensures r.Advanced? ==> Closer(old(store.jobs)[j], store.jobs[j], Mine(old(store.View()), j))
      ensures j in old(store.jobs) && Unwinding(old(store.jobs)[j].state) ==> Unwinds(r, old(store.View()), store.View(), j)
      ensures old(AtRest(store.View(), j)) ==> !r.Advanced? && store.View() == old(store.View()) && tablets == old(tablets)
      ensures old(OnCourse(store.View(), j, Mine(store.View(), j)) || IsPublished(store.View(), j)) ==>
        CourseEnds(r, store.View(), j, Mine(old(store.View()), j))
    {
      r := StepJob(j);
      if old(OnCourse(store.View(), j, Mine(store.View(), j))) && r.Advanced? {
        CourseKept(old(store.View()), store.View(), j, Mine(old(store.View()), j));
      }
    }

    /**
     * Drive one job until it completes, unwinds, parks, is refused or the driver dies: it always
     * ends. A driver that does not die publishes every addition and alteration nothing stands in the
     * way of, unless a tablet fails its validation.
     */
    method DriveJob(j: nat) returns (r: DriveStep)
      requires Valid()
      modifies store, `tablets
      ensures Valid() && Kept(old(store.View()), old(tablets), store.View(), tablets, j, Mine(old(store.View()), j))
      ensures !r.Advanced? && (j !in old(store.jobs) ==> r == Halted(NoJob)) && (r.Died? ==> mortal)
      ensures Means(r, store.View(), tablets, j, Mine(old(store.View()), j))
      ensures j in old(store.jobs) && Unwinding(old(store.jobs)[j].state) ==> Unwinds(r, old(store.View()), store.View(), j)
      ensures old(AtRest(store.View(), j)) ==> store.View() == old(store.View()) && tablets == old(tablets)
      ensures old(OnCourse(store.View(), j, Mine(store.View(), j))) ==> CourseEnds(r, store.View(), j, Mine(old(store.View()), j))
    {
      ghost var mine := Mine(store.View(), j);
      ghost var course := OnCourse(store.View(), j, mine);
      r := TakeStep(j);
      while r.Advanced?
        invariant Valid() && Kept(old(store.View()), old(tablets), store.View(), tablets, j, mine)
        invariant (j !in old(store.jobs) ==> r == Halted(NoJob)) && (r.Died? ==> mortal)
        invariant Means(r, store.View(), tablets, j, mine)
        invariant j in old(store.jobs) && Unwinding(old(store.jobs)[j].state) ==> Unwinds(r, old(store.View()), store.View(), j)
        invariant course ==> CourseEnds(r, store.View(), j, mine)
        invariant old(AtRest(store.View(), j)) ==> !r.Advanced? && store.View() == old(store.View()) && tablets == old(tablets)
        decreases r.Advanced?,
                  if j in store.jobs then StateRank(store.jobs[j].state) else 0,
                  if j in store.jobs then PhaseRank(store.jobs[j].phase) else 0,
                  if j in store.jobs then Unfinished(store.jobs[j], mine) else {}
      {
        ghost var mid, tabs := store.View(), tablets;
        r := TakeStep(j);
        KeptTrans(old(store.View()), old(tablets), mid, tabs, store.View(), tablets, j, mine);
      }
    }

    /** Driver after driver, each dying wherever it likes, until one of them ends the job or `lives` run out. */
    method DriveWithReplacements(j: nat, lives: nat) returns (r: DriveStep)
      requires Valid()
      modifies store, `tablets
      ensures Valid() && Kept(old(store.View()), old(tablets), store.View(), tablets, j, Mine(old(store.View()), j))
      ensures !r.Advanced? && Means(r, store.View(), tablets, j, Mine(old(store.View()), j))
      ensures j in old(store.jobs) && Unwinding(old(store.jobs)[j].state) ==> Unwinds(r, old(store.View()), store.View(), j)
      ensures j in old(store.jobs) && old(store.jobs)[j].tabletProgress == map[] && store.jobs[j].phase.Public? ==>
        AllHold(store.View(), tablets, j, Mine(old(store.View()), j))
      ensures r.Died? ==> mortal
    {
      ghost var mine := Mine(store.View(), j);
      r := DriveJob(j);
      var left := lives;
      while r.Died? && left > 0
        invariant Valid() && Kept(old(store.View()), old(tablets), store.View(), tablets, j, mine)
        invariant !r.Advanced? && Means(r, store.View(), tablets, j, mine) && (r.Died? ==> mortal)
        invariant j in old(store.jobs) && Unwinding(old(store.jobs)[j].state) ==> Unwinds(r, old(store.View()), store.View(), j)
        decreases left
      {
        ghost var mid, tabs := store.View(), tablets;
        r := DriveJob(j);
        KeptTrans(old(store.View()), old(tablets), mid, tabs, store.View(), tablets, j, mine);
        left := left - 1;
      }
      if j in old(store.jobs) && old(store.jobs)[j].tabletProgress == map[] && store.jobs[j].phase.Public? {
        PublishedHolds(old(store.View()), old(tablets), store.View(), tablets, j, mine);
      }
    }

    /** Ask for cancellation with the job's current version; terminal jobs refuse. */
    method CancelJob(j: nat) returns (r: ApplyResult)
      requires Valid()
      modifies store
      ensures Valid() && Kept(old(store.View()), tablets, store.View(), tablets, j, Mine(old(store.View()), j))
      ensures store.tables == old(store.tables)
      ensures j in old(store.jobs) && !old(store.jobs)[j].state.IsTerminal() ==> Unwinding(store.jobs[j].state)
      ensures j in old(store.jobs) && old(store.jobs)[j].state.IsTerminal() ==> r.Err? && SameData(old(store.View()), store.View())
    {
      QuietKept(store.View(), store.View(), tablets, j, Mine(store.View(), j));
      if j !in store.jobs {
        return Err(NotFound);
      }
      if store.jobs[j].state.IsTerminal() {
        return Err(Conflict);
      }
      r := SetState(j, Cancelling, None, Some(store.jobs[j].metadataVersion));
      QuietKept(old(store.View()), store.View(), tablets, j, Mine(old(store.View()), j));
    }

    /**
     * Cancelling an unfinished addition anywhere, with any number of dying drivers, ends Failed
     * with no index record, no staged or installed generation on any of its tablets, and every
     * table as it was; otherwise the last driver died and the job is still being unwound.
     */
    method CancelAndDrive(j: nat, lives: nat) returns (r: DriveStep)
      requires Valid() && j in store.jobs && !store.jobs[j].state.IsTerminal()
      modifies store, `tablets
      ensures Valid() && Kept(old(store.View()), old(tablets), store.View(), tablets, j, Mine(old(store.View()), j))
      ensures store.tables == old(store.tables)
      ensures r.RolledBack? || (r.Died? && mortal && Unwinding(store.jobs[j].state))
      ensures r.RolledBack? ==> Unwound(store.View(), tablets, j, Mine(old(store.View()), j))
    {
      var asked := CancelJob(j);
      ghost var mid := store.View();
      r := DriveWithReplacements(j, lives);
      KeptTrans(old(store.View()), old(tablets), mid, old(tablets), store.View(), tablets, j, Mine(old(store.View()), j));
    }
  }
}
