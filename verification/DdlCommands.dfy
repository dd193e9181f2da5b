/**
 * The commands of the store one by one, as a client sees them: when each is accepted, what it then
 * leaves, what no command touches, and what an expected version protects against.
 */
module DdlCommands {
  import opened Common
  import opened DdlTypes
  import opened DdlStoreSpec
  import opened DdlInvariant
  import opened DdlHistory

  /** The store after a command, if it was accepted. */
  ghost predicate AcceptedAs(s: Store, c: DdlCommand, id: Option<nat>, ts: Timestamp, s': Store) {
    Apply(s, c, id, ts) == Applied(s', Ok)
  }

  ghost predicate RefusedFor(s: Store, c: DdlCommand, id: Option<nat>, ts: Timestamp, reason: DdlRejection) {
    Apply(s, c, id, ts).Applied? && Apply(s, c, id, ts).result == Err(reason)
  }

  // ------------------------------------------------------------------ frame

  /** The one job a command can change. */
  function TargetJob(c: DdlCommand): Option<nat> {
    match c
    case SubmitJob(job) => Some(job.jobId)
    case AdvancePhase(j, _, _, _) => Some(j)
    case UpdateTabletProgress(j, _) => Some(j)
    case ForgetTabletProgress(j, _) => Some(j)
    case ReportTabletValidation(j, _) => Some(j)
    case PublishJob(j, _) => Some(j)
    case SetJobState(j, _, _, _, _) => Some(j)
    case RemoveIndexRecord(j) => Some(j)
    case _ => None
  }

  /** The one index name a command can change. */
  function TargetIndex(s: Store, c: DdlCommand): Option<(TableId, string)> {
    match c
    case SubmitJob(job) => if job.definition.AddIndex? then Some(job.IndexKey()) else None
    case AdvancePhase(j, _, _, _) => IndexOf(s, j)
    case PublishJob(j, _) => IndexOf(s, j)
    case RemoveIndexRecord(j) => IndexOf(s, j)
    case ReclaimIndex(table, name) => Some((table, name))
    case _ => None
  }

  function IndexOf(s: Store, j: nat): Option<(TableId, string)> {
    if j in s.jobs && s.jobs[j].HasIndex() then Some(s.jobs[j].IndexKey()) else None
  }

  /** The one table a command can change. */
  function TargetTable(s: Store, c: DdlCommand): Option<TableId> {
    match c
    case RegisterTable(a) => Some(a.tableId)
    case PublishJob(j, _) => if j in s.jobs && s.jobs[j].definition.AlterSchema? then Some(s.jobs[j].tableId) else None
    case _ => None
  }

  /** The one reader whose pin a command can change. */
  function TargetReader(c: DdlCommand): Option<nat> {
    match c
    case PinReader(reader, _) => Some(reader)
    case ReleaseReader(reader) => Some(reader)
    case _ => None
  }

  ghost predicate SameBut<K(!new), V(!new)>(m: map<K, V>, m': map<K, V>, target: Option<K>) {
    forall k :: target != Some(k) ==> (k in m' <==> k in m) && (k in m ==> m'[k] == m[k])
  }

  ghost predicate TouchesItsTarget(s: Store, c: DdlCommand, s': Store) {
    && SameBut(s.jobs, s'.jobs, TargetJob(c)) && SameBut(s.indexes, s'.indexes, TargetIndex(s, c))
    && SameBut(s.tables, s'.tables, TargetTable(s, c)) && SameBut(s.pins, s'.pins, TargetReader(c))
    && (s'.nextJobId != s.nextJobId ==> c.SubmitJob?)
  }

  lemma SubmitTouches(s: Store, job: DdlJobRecord, ts: Timestamp, s': Store)
    requires SubmittedJob(s, job, ts) == Accepted(s')
    ensures TouchesItsTarget(s, SubmitJob(job), s')
  {
  }

  lemma AdvanceTouches(s: Store, c: DdlCommand, ts: Timestamp, s': Store)
    requires c.AdvancePhase? && Dispatch(s, c, ts) == Accepted(s')
    ensures TouchesItsTarget(s, c, s')
  {
  }

  lemma PublishTouches(s: Store, c: DdlCommand, ts: Timestamp, s': Store)
    requires c.PublishJob? && Dispatch(s, c, ts) == Accepted(s')
    ensures TouchesItsTarget(s, c, s')
  {
  }

  lemma ProgressTouches(s: Store, c: DdlCommand, ts: Timestamp, s': Store)
    requires c.UpdateTabletProgress? || c.ForgetTabletProgress? || c.ReportTabletValidation? || c.SetJobState?
    requires Dispatch(s, c, ts) == Accepted(s')
    ensures TouchesItsTarget(s, c, s')
  {
    var j := TargetJob(c).value;
    assert s' == s.(jobs := s'.jobs) && (s'.jobs == s.jobs || s'.jobs == s.jobs[j := s'.jobs[j]]);
  }

  lemma RemoveTouches(s: Store, c: DdlCommand, ts: Timestamp, s': Store)
    requires (c.RemoveIndexRecord? || c.ReclaimIndex?) && Dispatch(s, c, ts) == Accepted(s')
    ensures TouchesItsTarget(s, c, s')
  {
  }

  lemma OtherTouches(s: Store, c: DdlCommand, ts: Timestamp, s': Store)
    requires c.RegisterTable? || c.PinReader? || c.ReleaseReader?
    requires Dispatch(s, c, ts) == Accepted(s')
    ensures TouchesItsTarget(s, c, s')
  {
  }

  lemma DispatchTouches(s: Store, c: DdlCommand, ts: Timestamp, s': Store)
    requires Dispatch(s, c, ts) == Accepted(s')
    ensures TouchesItsTarget(s, c, s')
  {
    match c
    case SubmitJob(job) => SubmitTouches(s, job, ts, s');
    case AdvancePhase(_, _, _, _) => AdvanceTouches(s, c, ts, s');
    case PublishJob(_, _) => PublishTouches(s, c, ts, s');
    case UpdateTabletProgress(_, _) => ProgressTouches(s, c, ts, s');
    case ForgetTabletProgress(_, _) => ProgressTouches(s, c, ts, s');
    case ReportTabletValidation(_, _) => ProgressTouches(s, c, ts, s');
    case SetJobState(_, _, _, _, _) => ProgressTouches(s, c, ts, s');
    case RemoveIndexRecord(_) => RemoveTouches(s, c, ts, s');
    case ReclaimIndex(_, _) => RemoveTouches(s, c, ts, s');
    case _ => OtherTouches(s, c, ts, s');
  }

  /** No command reaches past the one job, the one index name, the one table and the one reader it is about. */
  lemma ApplyTouchesItsTarget(s: Store, c: DdlCommand, id: Option<nat>, ts: Timestamp, s': Store)
    requires Apply(s, c, id, ts).Applied? && s' == Apply(s, c, id, ts).store
    ensures TouchesItsTarget(s, c, s')
  {
    if Dispatch(Ticked(s), c, ts).Accepted? {
      DispatchTouches(Ticked(s), c, ts, s');
    }
  }

  // --------------------------------------------------------- expected versions

  /** Every record carries the version of the command that last changed it. */
  ghost predicate StampsPast(s: Store) {
    && (forall j :: j in s.jobs ==> s.jobs[j].metadataVersion <= s.version)
    && (forall k :: k in s.indexes ==> s.indexes[k].metadataVersion <= s.version)
    && (forall t :: t in s.tables ==> s.tables[t].metadataVersion <= s.version)
  }

  /** What a command changes it stamps with its own version. */
  ghost predicate StampStep(s: Store, s': Store) {
    && s'.version == s.version + 1 && s.jobs.Keys <= s'.jobs.Keys && s.tables.Keys <= s'.tables.Keys
    && JobsStamped(s.jobs, s'.jobs, s'.version) && IndexesStamped(s.indexes, s'.indexes, s'.version)
    && TablesStamped(s.tables, s'.tables, s'.version)
  }

  ghost predicate JobsStamped(m: map<nat, DdlJobRecord>, m': map<nat, DdlJobRecord>, v: MetadataVersion) {
    forall j :: j in m' ==> (j in m && m'[j] == m[j]) || m'[j].metadataVersion == v
  }

  ghost predicate IndexesStamped(m: map<(TableId, string), DdlIndexRecord>, m': map<(TableId, string), DdlIndexRecord>, v: MetadataVersion) {
    forall k :: k in m' ==> (k in m && m'[k] == m[k]) || m'[k].metadataVersion == v
  }

  ghost predicate TablesStamped(m: map<TableId, TableAnchor>, m': map<TableId, TableAnchor>, v: MetadataVersion) {
    forall t :: t in m' ==> (t in m && m'[t] == m[t]) || m'[t].metadataVersion == v
  }

  predicate JobStamped(s: Store, s': Store, j: nat)
    requires j in s'.jobs
  {
    (j in s.jobs && s'.jobs[j] == s.jobs[j]) || s'.jobs[j].metadataVersion == s'.version
  }

  predicate IndexStamped(s: Store, s': Store, k: (TableId, string))
    requires k in s'.indexes
  {
    (k in s.indexes && s'.indexes[k] == s.indexes[k]) || s'.indexes[k].metadataVersion == s'.version
  }

  predicate TableStamped(s: Store, s': Store, t: TableId)
    requires t in s'.tables
  {
    (t in s.tables && s'.tables[t] == s.tables[t]) || s'.tables[t].metadataVersion == s'.version
  }

  ghost predicate TargetsStamped(s: Store, c: DdlCommand, s': Store) {
    && (TargetJob(c).Some? && TargetJob(c).value in s'.jobs ==> JobStamped(s, s', TargetJob(c).value))
    && (TargetIndex(s, c).Some? && TargetIndex(s, c).value in s'.indexes ==> IndexStamped(s, s', TargetIndex(s, c).value))
    && (TargetTable(s, c).Some? && TargetTable(s, c).value in s'.tables ==> TableStamped(s, s', TargetTable(s, c).value))
    && s.jobs.Keys <= s'.jobs.Keys && s.tables.Keys <= s'.tables.Keys && s'.version == s.version
  }

  /** It is enough to look at what a command is about. */
  lemma TargetStamped(s: Store, c: DdlCommand, s': Store)
    requires TouchesItsTarget(s, c, s') && TargetsStamped(s, c, s')
    ensures
      && JobsStamped(s.jobs, s'.jobs, s'.version) && IndexesStamped(s.indexes, s'.indexes, s'.version)
      && TablesStamped(s.tables, s'.tables, s'.version)
  {
  }

  lemma SubmitStamps(s: Store, job: DdlJobRecord, ts: Timestamp, s': Store)
    requires SubmittedJob(s, job, ts) == Accepted(s')
    ensures TargetsStamped(s, SubmitJob(job), s')
  {
  }

  lemma AdvanceStamps(s: Store, c: DdlCommand, ts: Timestamp, s': Store)
    requires c.AdvancePhase? && Dispatch(s, c, ts) == Accepted(s')
    ensures TargetsStamped(s, c, s')
  {
  }

  lemma PublishStamps(s: Store, c: DdlCommand, ts: Timestamp, s': Store)
    requires c.PublishJob? && Dispatch(s, c, ts) == Accepted(s')
    ensures TargetsStamped(s, c, s')
  {
  }

  lemma ProgressStamps(s: Store, c: DdlCommand, ts: Timestamp, s': Store)
    requires c.UpdateTabletProgress? || c.ForgetTabletProgress?
    requires Dispatch(s, c, ts) == Accepted(s')
    ensures TargetsStamped(s, c, s')
  {
  }

  lemma ReportStamps(s: Store, c: DdlCommand, ts: Timestamp, s': Store)
    requires c.ReportTabletValidation? && Dispatch(s, c, ts) == Accepted(s')
    ensures TargetsStamped(s, c, s')
  {
  }

  lemma StateStamps(s: Store, c: DdlCommand, ts: Timestamp, s': Store)
    requires c.SetJobState? && Dispatch(s, c, ts) == Accepted(s')
    ensures TargetsStamped(s, c, s')
  {
  }

  lemma RemoveStamps(s: Store, c: DdlCommand, ts: Timestamp, s': Store)
    requires (c.RemoveIndexRecord? || c.ReclaimIndex?) && Dispatch(s, c, ts) == Accepted(s')
    ensures TargetsStamped(s, c, s')
  {
  }

  lemma OthersStamp(s: Store, c: DdlCommand, ts: Timestamp, s': Store)
    requires c.RegisterTable? || c.PinReader? || c.ReleaseReader?
    requires Dispatch(s, c, ts) == Accepted(s')
    ensures TargetsStamped(s, c, s')
  {
  }

  lemma HandlerStamps(s: Store, c: DdlCommand, ts: Timestamp, s': Store)
    requires Dispatch(s, c, ts) == Accepted(s')
    ensures TargetsStamped(s, c, s')
  {
    match c
    case SubmitJob(job) => SubmitStamps(s, job, ts, s');
    case AdvancePhase(_, _, _, _) => AdvanceStamps(s, c, ts, s');
    case PublishJob(_, _) => PublishStamps(s, c, ts, s');
    case UpdateTabletProgress(_, _) => ProgressStamps(s, c, ts, s');
    case ForgetTabletProgress(_, _) => ProgressStamps(s, c, ts, s');
    case ReportTabletValidation(_, _) => ReportStamps(s, c, ts, s');
    case SetJobState(_, _, _, _, _) => StateStamps(s, c, ts, s');
    case RemoveIndexRecord(_) => RemoveStamps(s, c, ts, s');
    case ReclaimIndex(_, _) => RemoveStamps(s, c, ts, s');
    case _ => OthersStamp(s, c, ts, s');
  }

  lemma DispatchStamps(s: Store, c: DdlCommand, ts: Timestamp, s': Store)
    requires Dispatch(Ticked(s), c, ts) == Accepted(s')
    ensures StampStep(s, s')
  {
    DispatchTouches(Ticked(s), c, ts, s');
    HandlerStamps(Ticked(s), c, ts, s');
    TargetStamped(Ticked(s), c, s');
  }

  ghost predicate Stamps(s: Store, s': Store) {
    StampStep(s, s') && (StampsPast(s) ==> StampsPast(s'))
  }

  lemma ApplyStamps(s: Store, call: Call, s': Store)
    requires Applies(s, call, s')
    ensures Stamps(s, s')
  {
    if Dispatch(Ticked(s), call.command, call.ts).Accepted? {
      DispatchStamps(s, call.command, call.ts, s');
    }
  }

  /** Between two stores: the job is as it was, or carries a version from after the first. */
  ghost predicate Since(s: Store, s': Store, j: nat) {
    && StampsPast(s') && s.version <= s'.version && j in s.jobs && j in s'.jobs
    && (s'.jobs[j] == s.jobs[j] || s.version < s'.jobs[j].metadataVersion)
  }

  /** Every step of the log stamps what it changes. */
  ghost predicate Stamped(states: seq<Store>) {
    forall k, next :: 0 <= k < next < |states| && next == k + 1 ==> Stamps(states[k], states[next])
  }

  lemma LogIsStamped(states: seq<Store>, calls: seq<Call>)
    requires IsLog(states, calls)
    ensures Stamped(states)
  {
    forall k, next | 0 <= k < next < |states| && next == k + 1 ensures Stamps(states[k], states[next]) {
      ApplyStamps(states[k], calls[k], states[next]);
    }
  }

  /** From one state of a log to another: a job changed since carries a version from after it was read. */
  lemma {:induction false} JobVersionNamesContent(states: seq<Store>, i: nat, k: nat, j: nat)
    requires Stamped(states) && i <= k < |states| && j in states[i].jobs && StampsPast(states[i])
    ensures Since(states[i], states[k], j)
    decreases k
  {
    if i < k {
      JobVersionNamesContent(states, i, k - 1, j);
      assert Stamps(states[k - 1], states[k]);
    }
  }

  /**
   * A phase or state change that names the version at which its job was read is refused as stale
   * exactly when the job has changed since, whatever was applied in between: two clients acting on
   * one reading of a job cannot both succeed unless the first changed nothing.
   */
  lemma StaleIff(states: seq<Store>, calls: seq<Call>, i: nat, k: nat, j: nat)
    requires IsLog(states, calls) && i <= k < |calls| && j in states[i].jobs && StampsPast(states[i])
    requires
      var read := Some(states[i].jobs[j].metadataVersion);
      || (calls[k].command.AdvancePhase? && calls[k].command.jobId == j && calls[k].command.expected == read)
      || (calls[k].command.SetJobState? && calls[k].command.jobId == j && calls[k].command.expected == read)
    ensures j in states[k].jobs
    ensures
      var r := Apply(states[k], calls[k].command, calls[k].id, calls[k].ts);
      && r.Applied?
      && (r.result.Err? && r.result.reason.StaleWrite? <==> states[k].jobs[j] != states[i].jobs[j])
  {
    assert Since(states[i], states[k], j) by {
      LogIsStamped(states, calls);
      JobVersionNamesContent(states, i, k, j);
    }
    assert Applies(states[k], calls[k], states[k + 1]);
  }

  /** Runs start stamped: the empty store is, and every command keeps it so. */
  lemma ReachableStamps(s: Store)
    requires Reachable(s)
    ensures StampsPast(s)
  {
    var states, calls :| EndsAt(states, calls, s);
    RunStamps(states, calls, |calls|);
  }

  lemma {:induction false} RunStamps(states: seq<Store>, calls: seq<Call>, k: nat)
    requires IsRun(states, calls) && states[0] == EMPTY_STORE && k < |states|
    ensures StampsPast(states[k])
  {
    if k > 0 {
      RunStamps(states, calls, k - 1);
      assert Steps(states[k - 1], calls[k - 1], states[k]);
      ApplyStamps(states[k - 1], calls[k - 1], states[k]);
    }
  }

  // ---------------------------------------------------------------- tables

  /** Registration: accepted exactly when newer than what is stored, or the same again; the document is then in force. */
  lemma RegisterIff(s: Store, a: TableAnchor, id: Option<nat>, ts: Timestamp)
    ensures
      var stored := if a.tableId in s.tables then s.tables[a.tableId].schemaVersion else 0;
      var r := Apply(s, RegisterTable(a), id, ts);
      && r.Applied?
      && (r.result.Ok? <==>
            && a.tableId != 0 && 0 < a.schemaVersion
            && (a.schemaVersion > stored || a.tableId !in s.tables
                || (a.schemaVersion == stored && s.tables[a.tableId].databaseId == a.databaseId && s.tables[a.tableId].schema == a.schema)))
      && (r.result.Ok? ==> a.tableId in r.store.tables)
      && (r.result.Ok? ==>
            var t := r.store.tables[a.tableId];
            t.schema == a.schema && t.databaseId == a.databaseId && t.schemaVersion == a.schemaVersion)
  {
  }

  // ------------------------------------------------------------------ jobs

  /** The record a job leaves or finds under its name. */
  ghost predicate NameFits(s: Store, job: DdlJobRecord) {
    match job.definition
    case AddIndex(name, _) => !IsBlank(name) && (job.tableId, name) !in s.indexes
    case DropIndex(name) => (job.tableId, name) in s.indexes && s.indexes[(job.tableId, name)].phase.Public?
    case AlterSchema(_) => true
  }

  /** A new job: accepted exactly under the schema it names, as the only unfinished job of its table, with its name free or Public. */
  lemma SubmitIff(s: Store, job: DdlJobRecord, id: Option<nat>, ts: Timestamp)
    requires job.jobId !in s.jobs
    ensures
      var r := Apply(s, SubmitJob(job), id, ts);
      && r.Applied?
      && (r.result.Ok? <==>
            && job.jobId != 0 && job.tableId in s.tables && s.tables[job.tableId].databaseId == job.databaseId
            && s.tables[job.tableId].schemaVersion == job.sourceSchemaVersion
            && job.state.Queued? && job.phase == (if job.kind.KindDropIndex? then Public else Pending)
            && (forall j :: j in s.jobs && s.jobs[j].tableId == job.tableId ==> s.jobs[j].state.IsTerminal())
            && NameFits(s, job))
      && (r.result.Ok? ==> job.jobId in r.store.jobs && r.store.jobs[job.jobId] == job.(metadataVersion := s.version + 1, updatedAt := ts))
      && (r.result.Ok? ==> job.jobId < r.store.nextJobId && s.nextJobId <= r.store.nextJobId)
      && (r.result.Ok? && job.definition.AddIndex? ==> Reserved(r.store, job, ts))
  {
  }

  /** The name of an addition is taken, hidden, with no mark of publication or retirement. */
  ghost predicate Reserved(s: Store, job: DdlJobRecord, ts: Timestamp)
    requires job.definition.AddIndex?
  {
    && job.IndexKey() in s.indexes
    && var r := s.indexes[job.IndexKey()];
       && r.phase.Pending? && r.jobId == job.jobId && r.definition == job.definition.spec && r.createdAt == ts
       && r.tableId == job.tableId && r.indexName == job.definition.indexName
       && r.publicationVersion.None? && r.publishedAt.None? && r.droppingSince.None?
  }

  /** Apart from when and by which command it was last touched. */
  predicate SameJob(a: DdlJobRecord, b: DdlJobRecord) {
    a.(updatedAt := b.updatedAt, metadataVersion := b.metadataVersion) == b
  }

  predicate Expects(expected: Option<MetadataVersion>, job: DdlJobRecord) {
    expected.None? || expected.value == job.metadataVersion
  }

  /** A phase change: accepted exactly for a running job, along one edge of the graph or again to where it is; never to Public but for a drop. */
  lemma AdvanceIff(s: Store, j: nat, to: DdlPhase, pin: Option<Timestamp>, expected: Option<MetadataVersion>, id: Option<nat>, ts: Timestamp)
    ensures
      var r := Apply(s, AdvancePhase(j, to, pin, expected), id, ts);
      && r.Applied?
      && (r.result.Ok? <==>
            && j in s.jobs && Expects(expected, s.jobs[j]) && s.jobs[j].state.Running?
            && (if s.jobs[j].phase == to then to.Backfilling? ==> s.jobs[j].pinnedSnapshot == pin
                else s.jobs[j].phase.CanTransition(to) && (to.Public? ==> s.jobs[j].kind.KindDropIndex?) && (to.Backfilling? ==> pin.Some?)))
      && (r.result.Ok? ==> SameJob(r.store.jobs[j], s.jobs[j].(phase := to, pinnedSnapshot := if to.Backfilling? then pin else s.jobs[j].pinnedSnapshot)))
      && (r.result.Ok? && s.jobs[j].phase != to && IndexOf(s, j).Some? && IndexOf(s, j).value in s.indexes ==> Follows(s, r.store, IndexOf(s, j).value, to))
  {
  }

  /** The record takes the phase; entering Dropping it is stamped with the command's version. */
  ghost predicate Follows(s: Store, s': Store, k: (TableId, string), to: DdlPhase)
    requires k in s.indexes
  {
    && k in s'.indexes
    && s'.indexes[k] == s.indexes[k].(phase := to, metadataVersion := s.version + 1,
                                      droppingSince := if to.Dropping? then Some(s.version + 1) else s.indexes[k].droppingSince)
  }

  /** Progress: taken while backfilling unless it falls back; afterwards only what is already covered, and then nothing changes. */
  lemma UpdateIff(s: Store, j: nat, p: TabletDdlProgress, id: Option<nat>, ts: Timestamp)
    ensures
      var r := Apply(s, UpdateTabletProgress(j, p), id, ts);
      && r.Applied?
      && (r.result.Ok? <==> j in s.jobs && if s.jobs[j].phase.Backfilling? then NotBehind(s.jobs[j], p) else Covered(s.jobs[j], p))
      && (r.result.Ok? && s.jobs[j].phase.Backfilling? ==>
            SameJob(r.store.jobs[j], s.jobs[j].(tabletProgress := s.jobs[j].tabletProgress[p.tabletId := p])))
      && (r.result.Ok? && !s.jobs[j].phase.Backfilling? ==> r.store == Ticked(s))
  {
  }

  predicate NotBehind(job: DdlJobRecord, p: TabletDdlProgress) {
    p.tabletId in job.tabletProgress ==>
      var q := job.tabletProgress[p.tabletId];
      q.stage.Rank() < p.stage.Rank() || (q.stage == p.stage && q.rowsScanned <= p.rowsScanned)
  }

  predicate Covered(job: DdlJobRecord, p: TabletDdlProgress) {
    && p.tabletId in job.tabletProgress
    && p.stage.Rank() <= job.tabletProgress[p.tabletId].stage.Rank() && p.rowsScanned <= job.tabletProgress[p.tabletId].rowsScanned
  }

  /** Forgetting: while backfilling or validating the tablet's entry goes, and no other. */
  lemma ForgetIff(s: Store, j: nat, t: TabletId, id: Option<nat>, ts: Timestamp)
    ensures
      var r := Apply(s, ForgetTabletProgress(j, t), id, ts);
      && r.Applied?
      && (r.result.Ok? <==> j in s.jobs && (s.jobs[j].phase.Backfilling? || s.jobs[j].phase.Validating?))
      && (r.result.Ok? ==> SameJob(r.store.jobs[j], s.jobs[j].(tabletProgress := s.jobs[j].tabletProgress - {t})))
  {
    assert j in s.jobs && t !in s.jobs[j].tabletProgress ==> s.jobs[j].tabletProgress - {t} == s.jobs[j].tabletProgress;
  }

  /** A report: taken while validating from a tablet that caught up; it moves the cursor, and validates if it passed. */
  lemma ReportIff(s: Store, j: nat, report: TabletValidationReport, id: Option<nat>, ts: Timestamp)
    ensures
      var r, t := Apply(s, ReportTabletValidation(j, report), id, ts), report.tabletId;
      && r.Applied?
      && (r.result.Ok? <==>
            && j in s.jobs && s.jobs[j].phase.Validating?
            && t in s.jobs[j].tabletProgress && s.jobs[j].tabletProgress[t].stage.Rank() >= CaughtUp.Rank())
      && (r.result.Ok? && !(s.jobs[j].tabletProgress[t].stage.Validated? && s.jobs[j].tabletProgress[t].validation == Some(report)) ==>
            var q := s.jobs[j].tabletProgress[t].(validation := Some(report), caughtUpThrough := Some(report.watermark));
            SameJob(r.store.jobs[j], s.jobs[j].(tabletProgress := s.jobs[j].tabletProgress[t := if report.Passed() then q.(stage := Validated) else q])))
      && (r.result.Ok? && s.jobs[j].tabletProgress[t].stage.Validated? && s.jobs[j].tabletProgress[t].validation == Some(report) ==> r.store == Ticked(s))
  {
  }

  /** Publication of a running job: exactly when every tablet is proven, there is one, the schema has not moved and an addition has its record. */
  lemma PublishIff(s: Store, j: nat, at: Timestamp, id: Option<nat>, ts: Timestamp)
    requires j in s.jobs && s.jobs[j].state.Running? && KindMatches(s.jobs[j])
    ensures
      var r, job := Apply(s, PublishJob(j, at), id, ts), s.jobs[j];
      && r.Applied?
      && (r.result.Ok? <==>
            && !job.kind.KindDropIndex? && job.phase.Validating? && HasEvidence(job)
            && job.tableId in s.tables && s.tables[job.tableId].schemaVersion == job.sourceSchemaVersion
            && (job.definition.AddIndex? ==> job.IndexKey() in s.indexes))
      && (r.result.Ok? ==> SameJob(r.store.jobs[j], job.(phase := Public, state := Succeeded)))
      && (r.result.Ok? && job.definition.AddIndex? ==>
            && r.store.tables == s.tables && job.IndexKey() in r.store.indexes
            && r.store.indexes[job.IndexKey()] == s.indexes[job.IndexKey()].(phase := Public, publicationVersion := Some(s.version + 1),
                                                                             publishedAt := Some(at), metadataVersion := s.version + 1))
  {
    EvidenceIsNoPending(s.jobs[j]);
  }

  /** A job that does not run is not published; one already published, and only that, is told so again. */
  lemma PublishIdleIff(s: Store, j: nat, at: Timestamp, id: Option<nat>, ts: Timestamp)
    requires j in s.jobs ==> !s.jobs[j].state.Running?
    ensures
      var r := Apply(s, PublishJob(j, at), id, ts);
      && r.Applied?
      && (r.result.Ok? <==> j in s.jobs && s.jobs[j].state.Succeeded? && s.jobs[j].phase.Public? && !s.jobs[j].kind.KindDropIndex?)
      && (r.result.Ok? ==> r.store == Ticked(s))
  {
  }

  lemma EvidenceIsNoPending(job: DdlJobRecord)
    ensures HasEvidence(job) <==> job.tabletProgress != map[] && PendingTablets(job) == {}
  {
    if !HasEvidence(job) && job.tabletProgress != map[] {
      var t :| t in job.tabletProgress && !job.tabletProgress[t].IsProven();
      assert job.tabletProgress[t].tabletId in PendingTablets(job);
    }
  }

  /**
   * Publishing a running alteration: its table then has the job's target document at the next schema
   * version and keeps its database, the job has succeeded, and no index and no other table moved.
   */
  lemma AlterationPublishes(s: Store, j: nat, at: Timestamp, id: Option<nat>, ts: Timestamp, s': Store)
    requires AcceptedAs(s, PublishJob(j, at), id, ts, s')
    requires j in s.jobs && s.jobs[j].state.Running? && s.jobs[j].definition.AlterSchema?
    ensures
      var job, t := s.jobs[j], s.jobs[j].tableId;
      && t in s.tables && t in s'.tables
      && s'.tables[t].schema == job.definition.target && s'.tables[t].schemaVersion == job.sourceSchemaVersion + 1
      && s'.tables[t].databaseId == s.tables[t].databaseId && s'.tables[t].tableId == s.tables[t].tableId
      && s.tables[t].schemaVersion == job.sourceSchemaVersion
      && SameBut(s.tables, s'.tables, Some(t)) && s'.indexes == s.indexes
      && s'.jobs[j].state.Succeeded? && s'.jobs[j].phase.Public?
  {
  }

  /** A state change: accepted exactly for an unfinished job, along one edge or again to where it is. */
  lemma SetStateIff(s: Store, j: nat, state: JobState, at: Timestamp, error: Option<string>, expected: Option<MetadataVersion>, id: Option<nat>, ts: Timestamp)
    ensures
      var r := Apply(s, SetJobState(j, state, at, error, expected), id, ts);
      && r.Applied?
      && (r.result.Ok? <==>
            && j in s.jobs && Expects(expected, s.jobs[j]) && !s.jobs[j].state.IsTerminal()
            && (s.jobs[j].state == state || s.jobs[j].state.CanTransition(state)))
      && (r.result.Ok? ==> SameJob(r.store.jobs[j], s.jobs[j].(state := state, error := error)))
      && (r.result.Ok? && (s.jobs[j].state != state || s.jobs[j].error != error) ==> r.store.jobs[j].updatedAt == at)
  {
    var c := SetJobState(j, state, at, error, expected);
    assert Dispatch(Ticked(s), c, ts) == StateSet(Ticked(s), j, state, at, error, expected);
    StateSetIff(Ticked(s), j, state, at, error, expected);
    if Dispatch(Ticked(s), c, ts).Accepted? {
      StateSetTo(Ticked(s), j, state, at, error, expected, Dispatch(Ticked(s), c, ts).store);
    }
  }

  lemma StateSetIff(s: Store, j: nat, state: JobState, at: Timestamp, error: Option<string>, expected: Option<MetadataVersion>)
    ensures !StateSet(s, j, state, at, error, expected).Panicked?
    ensures StateSet(s, j, state, at, error, expected).Accepted? <==>
      && j in s.jobs && Expects(expected, s.jobs[j]) && !s.jobs[j].state.IsTerminal()
      && (s.jobs[j].state == state || s.jobs[j].state.CanTransition(state))
  {
  }

  lemma StateSetTo(s: Store, j: nat, state: JobState, at: Timestamp, error: Option<string>, expected: Option<MetadataVersion>, s': Store)
    requires StateSet(s, j, state, at, error, expected) == Accepted(s')
    ensures j in s.jobs && j in s'.jobs && SameJob(s'.jobs[j], s.jobs[j].(state := state, error := error))
    ensures s.jobs[j].state != state || s.jobs[j].error != error ==> s'.jobs[j].updatedAt == at
  {
  }

  // --------------------------------------------------------- records and pins

  /** Unwinding: for a job that is rolling back or failed, whatever stands under its name goes unless it is Public. */
  lemma RemoveIff(s: Store, j: nat, id: Option<nat>, ts: Timestamp)
    ensures
      var r := Apply(s, RemoveIndexRecord(j), id, ts);
      && r.Applied?
      && (r.result.Ok? <==>
            && j in s.jobs && (s.jobs[j].state.RollingBack? || s.jobs[j].state.Failed?)
            && !(IndexOf(s, j).Some? && IndexOf(s, j).value in s.indexes && s.indexes[IndexOf(s, j).value].phase.Public?))
      && (r.result.Ok? && IndexOf(s, j).Some? ==> IndexOf(s, j).value !in r.store.indexes)
      && (r.result.Ok? ==> SameJob(r.store.jobs[j], s.jobs[j]))
  {
  }

  /** Reclaim: an absent name is no error; a present one goes exactly when it is dropping and no reader is pinned before its retirement. */
  lemma ReclaimIff(s: Store, table: TableId, name: string, id: Option<nat>, ts: Timestamp)
    requires (table, name) in s.indexes && s.indexes[(table, name)].phase.Dropping? ==> s.indexes[(table, name)].droppingSince.Some?
    ensures
      var r, k := Apply(s, ReclaimIndex(table, name), id, ts), (table, name);
      && r.Applied?
      && (r.result.Ok? <==>
            k !in s.indexes || (s.indexes[k].phase.Dropping? && forall q :: q in s.pins ==> s.indexes[k].droppingSince.value <= s.pins[q]))
      && (r.result.Ok? ==> k !in r.store.indexes)
  {
  }

  /** A pin is taken at the version asked for unless it would move back; a release always frees it. */
  lemma PinAndReleaseIff(s: Store, reader: nat, v: MetadataVersion, id: Option<nat>, ts: Timestamp)
    ensures
      var r := Apply(s, PinReader(reader, v), id, ts);
      && r.Applied? && (r.result.Ok? <==> reader != 0 && (reader in s.pins ==> s.pins[reader] <= v))
      && (r.result.Ok? ==> reader in r.store.pins && r.store.pins[reader] == v)
    ensures
      var r := Apply(s, ReleaseReader(reader), id, ts);
      r.Applied? && r.result.Ok? && reader !in r.store.pins
  {
  }

  // -------------------------------------------------------------- refusals

  /** What a refusal says about the store it was met with. */
  ghost predicate TrueOf(s: Store, c: DdlCommand, reason: DdlRejection) {
    match reason
    case NotFound => MissesSomething(s, c)
    case StaleWrite(current, attempted) => IsStale(s, c, current, attempted)
    case IllegalPhaseTransition(j, from, to) =>
      TargetJob(c) == Some(j) && j in s.jobs && s.jobs[j].phase == from && (c.PublishJob? || !from.CanTransition(to))
    case JobNotRunning(j, state) => TargetJob(c) == Some(j) && j in s.jobs && s.jobs[j].state == state != Running
    case SchemaVersionMismatch(t, expected, found) => t in s.tables && s.tables[t].schemaVersion == found != expected
    case TabletProgressRegression(j, t) => TargetJob(c) == Some(j) && j in s.jobs && FallsBehind(s.jobs[j], c, t)
    case ValidationIncomplete(j, pending) => TargetJob(c) == Some(j) && j in s.jobs && !HasEvidence(s.jobs[j]) && pending == PendingTablets(s.jobs[j])
    case ReclaimBlocked(table, name, oldest, required) =>
      && (table, name) in s.indexes && s.indexes[(table, name)].droppingSince == Some(required)
      && oldest.Some? && oldest.value < required && IsOldest(s.pins, oldest)
    case _ => true
  }

  predicate FallsBehind(job: DdlJobRecord, c: DdlCommand, t: TabletId) {
    match c
    case UpdateTabletProgress(_, p) => p.tabletId == t && !NotBehind(job, p)
    case ReportTabletValidation(_, r) => r.tabletId == t && t in job.tabletProgress && job.tabletProgress[t].stage.Rank() < CaughtUp.Rank()
    case _ => false
  }

  ghost predicate MissesSomething(s: Store, c: DdlCommand) {
    || (TargetJob(c).Some? && TargetJob(c).value !in s.jobs && !c.SubmitJob?)
    || (c.SubmitJob? && (c.job.tableId !in s.tables || (c.job.HasIndex() && c.job.IndexKey() !in s.indexes)))
    || (c.ReportTabletValidation? && c.report.tabletId !in s.jobs[c.jobId].tabletProgress)
    || (c.PublishJob? && (s.jobs[c.jobId].tableId !in s.tables || (IndexOf(s, c.jobId).Some? && IndexOf(s, c.jobId).value !in s.indexes)))
  }

  ghost predicate IsStale(s: Store, c: DdlCommand, current: nat, attempted: nat) {
    match c
    case RegisterTable(a) => a.tableId in s.tables && current == s.tables[a.tableId].schemaVersion && attempted == a.schemaVersion < current
    case AdvancePhase(j, _, _, e) => j in s.jobs && current == s.jobs[j].metadataVersion != attempted && e == Some(attempted)
    case SetJobState(j, _, _, _, e) => j in s.jobs && current == s.jobs[j].metadataVersion != attempted && e == Some(attempted)
    case _ => false
  }

  /** A refusal tells the truth: the particulars it carries are those of the store. */
  lemma RefusalsAreTrue(s: Store, c: DdlCommand, id: Option<nat>, ts: Timestamp, reason: DdlRejection)
    requires RefusedFor(s, c, id, ts, reason)
    ensures TrueOf(s, c, reason)
  {
    DispatchRefusalTrue(Ticked(s), c, ts, reason);
    TickKeepsTruth(s, c, reason);
  }

  lemma TickKeepsTruth(s: Store, c: DdlCommand, reason: DdlRejection)
    ensures TrueOf(Ticked(s), c, reason) ==> TrueOf(s, c, reason)
  {
  }

  lemma DispatchRefusalTrue(s: Store, c: DdlCommand, ts: Timestamp, reason: DdlRejection)
    requires Dispatch(s, c, ts) == Refused(reason)
    ensures TrueOf(s, c, reason)
  {
    match c
    case ReclaimIndex(table, name) => BlockedByOldest(s, table, name, reason);
    case PublishJob(_, _) => PublishRefusalTrue(s, c, ts, reason);
    case SubmitJob(_) => SubmitRefusalTrue(s, c, ts, reason);
    case UpdateTabletProgress(_, _) => ProgressRefusalTrue(s, c, ts, reason);
    case ForgetTabletProgress(_, _) => ProgressRefusalTrue(s, c, ts, reason);
    case ReportTabletValidation(_, _) => ProgressRefusalTrue(s, c, ts, reason);
    case _ => OtherRefusalTrue(s, c, ts, reason);
  }

  lemma PublishRefusalTrue(s: Store, c: DdlCommand, ts: Timestamp, reason: DdlRejection)
    requires c.PublishJob? && Dispatch(s, c, ts) == Refused(reason)
    ensures TrueOf(s, c, reason)
  {
    if c.jobId in s.jobs {
      EvidenceIsNoPending(s.jobs[c.jobId]);
    }
  }

  lemma SubmitRefusalTrue(s: Store, c: DdlCommand, ts: Timestamp, reason: DdlRejection)
    requires c.SubmitJob? && Dispatch(s, c, ts) == Refused(reason)
    ensures TrueOf(s, c, reason)
  {
  }

  lemma ProgressRefusalTrue(s: Store, c: DdlCommand, ts: Timestamp, reason: DdlRejection)
    requires c.UpdateTabletProgress? || c.ForgetTabletProgress? || c.ReportTabletValidation?
    requires Dispatch(s, c, ts) == Refused(reason)
    ensures TrueOf(s, c, reason)
  {
  }

  lemma OtherRefusalTrue(s: Store, c: DdlCommand, ts: Timestamp, reason: DdlRejection)
    requires c.RegisterTable? || c.AdvancePhase? || c.SetJobState? || c.RemoveIndexRecord? || c.PinReader? || c.ReleaseReader?
    requires Dispatch(s, c, ts) == Refused(reason)
    ensures TrueOf(s, c, reason)
  {
  }

  lemma BlockedByOldest(s: Store, table: TableId, name: string, reason: DdlRejection)
    requires ReclaimedIndex(s, table, name) == Refused(reason)
    ensures TrueOf(s, ReclaimIndex(table, name), reason)
  {
    if reason.ReclaimBlocked? {
      var q :| q in s.pins && s.pins[q] < reason.required;
      assert IsOldest(s.pins, reason.oldestReader);
    }
  }
}
