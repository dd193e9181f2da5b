/** Records and commands of the replicated DDL store. */
module DdlTypes {
  import opened Common

  type TableId = nat
  type DatabaseId = nat
  type TabletId = nat
  type MetadataVersion = nat
  type SchemaVersion = nat
  type Timestamp = nat
  type Json = string

  /** Administrative lifecycle of a job. */
  datatype JobState = Queued | Running | Paused | Cancelling | Succeeded | Failed | RollingBack {
    predicate IsTerminal() { Succeeded? || Failed? }

    predicate CanTransition(next: JobState) {
      match (this, next)
      case (Queued, Running) => true
      case (Queued, Cancelling) => true
      case (Running, Paused) => true
      case (Running, Cancelling) => true
      case (Running, RollingBack) => true
      case (Running, Succeeded) => true
      case (Paused, Queued) => true
      case (Paused, Cancelling) => true
      case (Cancelling, RollingBack) => true
      case (Cancelling, Failed) => true
      case (RollingBack, Failed) => true
      case _ => false
    }
  }

  /** Protocol phase of one schema element. */
  datatype DdlPhase = Pending | WriteOnly | Backfilling | Validating | Public | Dropping {
    predicate CanTransition(next: DdlPhase) {
      match (this, next)
      case (Pending, WriteOnly) => true
      case (WriteOnly, Backfilling) => true
      case (Backfilling, Validating) => true
      case (Validating, Public) => true
      case (Public, Dropping) => true
      case _ => false
    }

    predicate IsHidden() { Pending? || WriteOnly? || Backfilling? || Validating? }
  }

  /** The job graph from the other end. */
  function WaysInto(next: JobState): set<JobState> {
    match next
    case Queued => {Paused}
    case Running => {Queued}
    case Paused => {Running}
    case Cancelling => {Queued, Running, Paused}
    case RollingBack => {Running, Cancelling}
    case Failed => {Cancelling, RollingBack}
    case Succeeded => {Running}
  }

  /** The two ends agree, and the states nothing leaves are the terminal ones. */
  lemma JobStateInto(s: JobState, next: JobState)
    ensures s.CanTransition(next) <==> s in WaysInto(next)
    ensures s.IsTerminal() <==> forall t: JobState :: !s.CanTransition(t)
  {
    match s
    case Queued => assert s.CanTransition(Running);
    case Running => assert s.CanTransition(Paused);
    case Paused => assert s.CanTransition(Queued);
    case Cancelling => assert s.CanTransition(Failed);
    case RollingBack => assert s.CanTransition(Failed);
    case _ =>
  }

  /** The order in which an element passes its phases. */
  const PHASES: seq<DdlPhase> := [Pending, WriteOnly, Backfilling, Validating, Public, Dropping]

  /** A phase change is one place forward in that order, and an element is hidden before the fifth. */
  lemma PhasesInOrder(i: nat, j: nat)
    requires i < |PHASES| && j < |PHASES|
    ensures PHASES[i].CanTransition(PHASES[j]) <==> j == i + 1
    ensures PHASES[i].IsHidden() <==> i < 4
  {
  }

  datatype DdlJobKind = KindAddIndex | KindDropIndex | KindAlterSchema

  datatype DdlDefinition =
    | AddIndex(indexName: string, spec: Json)
    | DropIndex(indexName: string)
    | AlterSchema(target: Json)

  datatype TabletDdlStage = Registered | Building | CaughtUp | Validated {
    function Rank(): nat {
      match this case Registered => 0 case Building => 1 case CaughtUp => 2 case Validated => 3
    }
  }

  datatype TabletValidationReport = TabletValidationReport(
    tabletId: TabletId,
    watermark: Timestamp,
    expectedRows: nat,
    actualRows: nat,
    expectedChecksum: seq<nat>,
    actualChecksum: seq<nat>)
  {
    predicate Passed() { expectedRows == actualRows && expectedChecksum == actualChecksum }
  }

  datatype TabletDdlProgress = TabletDdlProgress(
    tabletId: TabletId,
    stage: TabletDdlStage,
    rowsScanned: nat,
    caughtUpThrough: Option<Timestamp>,
    validation: Option<TabletValidationReport>)
  {
    /** The publication gate for one tablet. */
    predicate IsProven() { stage.Validated? && validation.Some? && validation.value.Passed() }
  }

  function RegisteredTablet(tablet: TabletId): TabletDdlProgress {
    TabletDdlProgress(tablet, Registered, 0, None, None)
  }

  datatype DdlJobRecord = DdlJobRecord(
    jobId: nat,
    databaseId: DatabaseId,
    tableId: TableId,
    kind: DdlJobKind,
    state: JobState,
    phase: DdlPhase,
    definition: DdlDefinition,
    sourceSchemaVersion: SchemaVersion,
    createdAt: Timestamp,
    updatedAt: Timestamp,
    pinnedSnapshot: Option<Timestamp>,
    tabletProgress: map<TabletId, TabletDdlProgress>,
    error: Option<string>,
    metadataVersion: MetadataVersion)
  {
    predicate HasIndex() { !definition.AlterSchema? }

    /** The key of the index record the job's definition names. */
    function IndexKey(): (TableId, string)
      requires HasIndex()
    {
      (tableId, definition.indexName)
    }
  }

  datatype DdlIndexRecord = DdlIndexRecord(
    tableId: TableId,
    indexName: string,
    definition: Json,
    phase: DdlPhase,
    jobId: nat,
    createdAt: Timestamp,
    publicationVersion: Option<MetadataVersion>,
    publishedAt: Option<Timestamp>,
    droppingSince: Option<MetadataVersion>,
    metadataVersion: MetadataVersion)
  {
    /** Planner visibility: published at or below `v`, and not yet retired at `v`. */
    predicate VisibleAt(v: MetadataVersion) {
      && publicationVersion.Some? && publicationVersion.value <= v
      && (droppingSince.Some? ==> v < droppingSince.value)
    }
  }

  datatype TableAnchor = TableAnchor(
    tableId: TableId,
    databaseId: DatabaseId,
    schemaVersion: SchemaVersion,
    schema: Json,
    metadataVersion: MetadataVersion)

  datatype DdlCommand =
    | RegisterTable(anchor: TableAnchor)
    | SubmitJob(job: DdlJobRecord)
    | AdvancePhase(jobId: nat, to: DdlPhase, pin: Option<Timestamp>, expected: Option<MetadataVersion>)
    | UpdateTabletProgress(jobId: nat, progress: TabletDdlProgress)
    | ForgetTabletProgress(jobId: nat, tabletId: TabletId)
    | ReportTabletValidation(jobId: nat, report: TabletValidationReport)
    | PublishJob(jobId: nat, publishedAt: Timestamp)
    | SetJobState(jobId: nat, state: JobState, updatedAt: Timestamp, error: Option<string>, expected: Option<MetadataVersion>)
    | RemoveIndexRecord(jobId: nat)
    | ReclaimIndex(tableId: TableId, indexName: string)
    | PinReader(readerId: nat, version: MetadataVersion)
    | ReleaseReader(readerId: nat)

  datatype DdlRejection =
    | Invalid
    | Conflict
    | NotFound
    | StaleWrite(current: nat, attempted: nat)
    | IllegalPhaseTransition(jobId: nat, from: DdlPhase, to: DdlPhase)
    | JobNotRunning(jobId: nat, state: JobState)
    | SchemaVersionMismatch(tableId: TableId, expected: SchemaVersion, found: SchemaVersion)
    | TabletProgressRegression(jobId: nat, tablet: TabletId)
    | ValidationIncomplete(jobId: nat, pending: set<TabletId>)
    | ReclaimBlocked(tableId: TableId, indexName: string, oldestReader: Option<MetadataVersion>, required: MetadataVersion)

  datatype JournalEntry = JournalEntry(commandId: Option<nat>, reason: DdlRejection)

  const DDL_REJECTION_LIMIT: nat := 256

  /** The abstract value of the replicated store. */
  datatype Store = Store(
    version: MetadataVersion,
    nextJobId: nat,
    tables: map<TableId, TableAnchor>,
    jobs: map<nat, DdlJobRecord>,
    indexes: map<(TableId, string), DdlIndexRecord>,
    pins: map<nat, MetadataVersion>,
    journal: seq<JournalEntry>)

  const EMPTY_STORE := Store(0, 1, map[], map[], map[], map[], [])

  /** The characters `str::trim` removes (Unicode White_Space). */
  predicate IsWhitespace(c: char) {
    || '\t' <= c <= '\r' || c == ' ' || c == '\U{0085}' || c == '\U{00A0}' || c == '\U{1680}'
    || '\U{2000}' <= c <= '\U{200A}' || c == '\U{2028}' || c == '\U{2029}' || c == '\U{202F}'
    || c == '\U{205F}' || c == '\U{3000}'
  }

  /** `name.trim().is_empty()`. */
  predicate IsBlank(name: string) {
    forall i :: 0 <= i < |name| ==> IsWhitespace(name[i])
  }

  /** The smallest value of a map, if it has any. */
  ghost predicate IsOldest(pins: map<nat, MetadataVersion>, oldest: Option<MetadataVersion>) {
    match oldest
    case None => pins == map[]
    case Some(v) => (exists r :: r in pins && pins[r] == v) && forall r :: r in pins ==> v <= pins[r]
  }

  lemma OldestIsUnique(pins: map<nat, MetadataVersion>, a: Option<MetadataVersion>, b: Option<MetadataVersion>)
    requires IsOldest(pins, a) && IsOldest(pins, b)
    ensures a == b
  {
  }

  lemma {:induction false} OldestExists(pins: map<nat, MetadataVersion>) returns (oldest: Option<MetadataVersion>)
    ensures IsOldest(pins, oldest)
    decreases |pins|
  {
    if pins == map[] {
      oldest := None;
    } else {
      var r :| r in pins;
      var rest := pins - {r};
      assert rest.Keys == pins.Keys - {r};
      var below := OldestExists(rest);
      oldest := if below.Some? && below.value < pins[r] then below else Some(pins[r]);
      if below.Some? {
        var q :| q in rest && rest[q] == below.value;
        assert q in pins && pins[q] == below.value;
      }
      forall q | q in pins ensures oldest.value <= pins[q] {
        assert q != r ==> q in rest && rest[q] == pins[q];
      }
    }
  }

  ghost function OldestReader(pins: map<nat, MetadataVersion>): (oldest: Option<MetadataVersion>)
    ensures IsOldest(pins, oldest)
  {
    assert exists o :: IsOldest(pins, o) by {
      var o := OldestExists(pins);
      assert IsOldest(pins, o);
    }
    var o :| IsOldest(pins, o);
    o
  }
}
