/**
 * The state of a merge: its phases, its rows with what catch-up attempts have done to them, its
 * layout by phase, and what they mean for the replacement.
 */
module MergeState {
  import opened Common
  import opened DdlTypes
  import opened Keyspace
  import opened IndexBuild
  import opened Partition
  import opened TabletMeta
  import opened MergePlans
  import opened MergeData
  import opened MergeLayout

  datatype MergePhase =
    | Started | MarkedMerging | ReplacementCreated | SnapshotsPinned | ReplacementBuilt | CaughtUp | Published | SourcesRetired
  {
    function Rank(): nat {
      match this
      case Started => 0 case MarkedMerging => 1 case ReplacementCreated => 2 case SnapshotsPinned => 3
      case ReplacementBuilt => 4 case CaughtUp => 5 case Published => 6 case SourcesRetired => 7
    }

    /** The phase a completed step makes durable; the last one is its own. */
    function Next(): MergePhase {
      match this
      case Started => MarkedMerging case MarkedMerging => ReplacementCreated case ReplacementCreated => SnapshotsPinned
      case SnapshotsPinned => ReplacementBuilt case ReplacementBuilt => MergePhase.CaughtUp case CaughtUp => MergePhase.Published
      case Published => SourcesRetired case SourcesRetired => SourcesRetired
    }

    /** Catch-up is behind it. */
    predicate HasCaughtUp() { CaughtUp? || Published? || SourcesRetired? }

    /** The layout is being prepared. */
    predicate IsHidden() { Started? || MarkedMerging? || ReplacementCreated? }
  }

  // ------------------------------------------------------------------- rows

  lemma ReplayedWithin(before: Content, now: Content, muts: seq<Mutation>, p: PartitionBounds)
    requires IsDiff(before, now, muts) && forall j :: 0 <= j < |muts| ==> p.Contains(muts[j].key)
    ensures Within(before, p) ==> Within(now, p)
  {
    if Within(before, p) {
      forall k | k in now ensures p.Contains(k) {
        if Lookup(before, k) != Lookup(now, k) {
          var m :| m in muts && m.key == k;
        } else {
          assert k in before;
        }
      }
    }
  }

  /** The rows and the replacement at one moment of the merge. */
  datatype Data = Data(lower: Rows, upper: Rows, installed: Content) {
    function LowerAt(ts: Timestamp): Content { RowsAt(lower, ts) }
    function UpperAt(ts: Timestamp): Content { RowsAt(upper, ts) }
    function LowerNow(): Content { Current(lower) }
    function UpperNow(): Content { Current(upper) }
  }

  /**
   * What the catch-up attempts since the build have done: whether deltas were read and rows moved
   * after that, the keys they wrote, and, for the last attempt, the keys and the content it started
   * from and the rows as they stood at its two reads.
   */
  datatype Attempts = Attempts(
    read: bool,
    moved: bool,
    touched: set<Key>,
    carried: set<Key>,
    leftover: Content,
    lowerAtRead: Rows,
    upperAtRead: Rows)
  {
    function LowerRead(): Content { Current(lowerAtRead) }
    function UpperRead(): Content { Current(upperAtRead) }
  }

  const NO_ATTEMPT := Attempts(false, false, {}, {}, map[], map[], map[])

  /** Built: each key holds its row at the merge timestamp unless an attempt wrote it, and then, while the sources are quiet, its present row. */
  ghost predicate Replayable(plan: MergePlan, ts: Timestamp, d: Data, a: Attempts) {
    var p, q := plan.lower.partition, plan.upper.partition;
    && Within(d.LowerAt(ts), p) && Within(d.UpperAt(ts), q) && Inside(plan, d.installed)
    && Untouched(d.LowerAt(ts), d.installed, p, a.touched) && Untouched(d.UpperAt(ts), d.installed, q, a.touched)
    && (!a.read ==> a.touched == {})
    && (!a.moved ==> Fresh(d.LowerNow(), d.installed, p, a.touched) && Fresh(d.UpperNow(), d.installed, q, a.touched))
  }

  ghost predicate Inside(plan: MergePlan, x: Content) {
    forall k :: k in x ==> plan.lower.partition.Contains(k) || plan.upper.partition.Contains(k)
  }

  /** The state the last attempt began in. */
  ghost predicate Began(plan: MergePlan, ts: Timestamp, d: Data, a: Attempts) {
    var p, q := plan.lower.partition, plan.upper.partition;
    && Untouched(d.LowerAt(ts), a.leftover, p, a.carried) && Untouched(d.UpperAt(ts), a.leftover, q, a.carried)
    && (!a.moved ==> Fresh(d.LowerNow(), a.leftover, p, a.carried) && Fresh(d.UpperNow(), a.leftover, q, a.carried))
  }

  ghost predicate LowerCaught(plan: MergePlan, ts: Timestamp, d: Data, a: Attempts) {
    && Within(a.LowerRead(), plan.lower.partition)
    && Caught(d.LowerAt(ts), a.LowerRead(), a.leftover, d.installed, plan.lower.partition)
    && Grew(a.lowerAtRead, d.lower) && (!a.moved ==> a.lowerAtRead == d.lower)
  }

  ghost predicate UpperCaught(plan: MergePlan, ts: Timestamp, d: Data, a: Attempts) {
    && Within(a.UpperRead(), plan.upper.partition)
    && Caught(d.UpperAt(ts), a.UpperRead(), a.leftover, d.installed, plan.upper.partition)
    && Grew(a.upperAtRead, d.upper) && (!a.moved ==> a.upperAtRead == d.upper)
  }

  /** An attempt has begun and replayed nothing. */
  ghost predicate Starting(plan: MergePlan, ts: Timestamp, d: Data, a: Attempts) {
    a.read && Replayable(plan, ts, d, a) && Began(plan, ts, d, a) && d.installed == a.leftover
  }

  /** The lower source has been replayed, and no key of the upper one touched. */
  ghost predicate HalfCaught(plan: MergePlan, ts: Timestamp, d: Data, a: Attempts) {
    && a.read && Replayable(plan, ts, d, a) && Began(plan, ts, d, a) && LowerCaught(plan, ts, d, a)
    && forall k :: plan.upper.partition.Contains(k) ==> Lookup(d.installed, k) == Lookup(a.leftover, k)
  }

  /** Caught up: every key holds the row read for it if that differs from the snapshot, and otherwise what the attempt found. */
  ghost predicate Replayed(plan: MergePlan, ts: Timestamp, d: Data, a: Attempts) {
    Inside(plan, d.installed) && Began(plan, ts, d, a) && LowerCaught(plan, ts, d, a) && UpperCaught(plan, ts, d, a)
  }

  /**
   * Every key an earlier attempt wrote, and whose row at the last read was back at its snapshot
   * row, held that row when the last attempt began.
   */
  ghost predicate NothingStale(plan: MergePlan, ts: Timestamp, d: Data, a: Attempts) {
    && Recovered(d.LowerAt(ts), a.LowerRead(), a.leftover, plan.lower.partition, a.carried)
    && Recovered(d.UpperAt(ts), a.UpperRead(), a.leftover, plan.upper.partition, a.carried)
  }

  /** The replacement holds exactly the rows of two contents, each key once. */
  predicate HoldsBoth(x: Content, lower: Content, upper: Content) {
    x == lower + upper && lower.Keys !! upper.Keys
  }

  /** The replacement holds exactly the newest rows of both sources, each once. */
  ghost predicate Complete(d: Data) { HoldsBoth(d.installed, d.LowerNow(), d.UpperNow()) }

  /** The rows side of the invariant, phase by phase. */
  ghost predicate DataOk(plan: MergePlan, ts: Timestamp, d: Data, a: Attempts, phase: MergePhase)
    decreases phase.Rank()
  {
    match phase
    case ReplacementBuilt => AllAscending(d.lower) && AllAscending(d.upper) && Replayable(plan, ts, d, a)
    case CaughtUp => AllAscending(d.lower) && AllAscending(d.upper) && Replayed(plan, ts, d, a)
    case Published => DataOk(plan, ts, d, a, MergePhase.CaughtUp)
    case SourcesRetired => DataOk(plan, ts, d, a, MergePhase.Published)
    case _ => AllAscending(d.lower) && AllAscending(d.upper)
  }

  lemma {:induction false} DataOpens(plan: MergePlan, ts: Timestamp, d: Data, a: Attempts, phase: MergePhase)
    requires DataOk(plan, ts, d, a, phase)
    ensures AllAscending(d.lower) && AllAscending(d.upper)
    ensures phase.HasCaughtUp() ==> Replayed(plan, ts, d, a)
    decreases phase.Rank()
  {
    match phase
    case Published => DataOpens(plan, ts, d, a, MergePhase.CaughtUp);
    case SourcesRetired => DataOpens(plan, ts, d, a, MergePhase.Published);
    case _ =>
  }

  lemma RangesDisjoint(plan: MergePlan)
    requires Runnable(plan)
    ensures forall k :: !(plan.lower.partition.Contains(k) && plan.upper.partition.Contains(k))
  {
    forall k ensures !(plan.lower.partition.Contains(k) && plan.upper.partition.Contains(k)) {
      UnionSplits(plan.lower.partition, plan.upper.partition, k);
    }
  }

  lemma InstallBuilds(plan: MergePlan, ts: Timestamp, d: Data)
    requires Runnable(plan) && Within(d.LowerAt(ts), plan.lower.partition) && Within(d.UpperAt(ts), plan.upper.partition)
    requires d.installed == map[] + d.LowerAt(ts) + d.UpperAt(ts)
    ensures Replayable(plan, ts, d, NO_ATTEMPT) && HoldsBoth(d.installed, d.LowerAt(ts), d.UpperAt(ts))
  {
    RangesDisjoint(plan);
    assert map[] + d.LowerAt(ts) == d.LowerAt(ts);
  }

  /** The rows may move at any time: what is claimed of the present rows is claimed only while they have not. */
  lemma {:induction false} WritesKeepData(plan: MergePlan, ts: Timestamp, d: Data, d': Data, a: Attempts, phase: MergePhase)
    requires DataOk(plan, ts, d, a, phase) && AllAscending(d'.lower) && AllAscending(d'.upper)
    requires d'.installed == d.installed && d'.LowerAt(ts) == d.LowerAt(ts) && d'.UpperAt(ts) == d.UpperAt(ts)
    requires Grew(d.lower, d'.lower) && Grew(d.upper, d'.upper)
    ensures DataOk(plan, ts, d', a.(moved := true), phase)
    decreases phase.Rank()
  {
    match phase
    case CaughtUp =>
      GrewTrans(a.lowerAtRead, d.lower, d'.lower);
      GrewTrans(a.upperAtRead, d.upper, d'.upper);
    case Published => WritesKeepData(plan, ts, d, d', a, MergePhase.CaughtUp);
    case SourcesRetired => WritesKeepData(plan, ts, d, d', a, MergePhase.Published);
    case _ =>
  }

  /** Only commits move the rows, and they count as moved only if some landed. */
  ghost predicate Stirred(d: Data, a: Attempts, d': Data, a': Attempts) {
    && Grew(d.lower, d'.lower) && Grew(d.upper, d'.upper)
    && (a'.moved ==> a.moved || d'.lower != d.lower || d'.upper != d.upper)
  }

  lemma StirredTrans(d: Data, a: Attempts, mid: Data, b: Attempts, d': Data, a': Attempts)
    requires Stirred(d, a, mid, b) && Stirred(mid, b, d', a')
    ensures Stirred(d, a, d', a')
  {
    GrewTrans(d.lower, mid.lower, d'.lower);
    GrewTrans(d.upper, mid.upper, d'.upper);
    if d'.lower == d.lower && d'.upper == d.upper {
      GrewBack(d.lower, mid.lower);
      GrewBack(d.upper, mid.upper);
    }
  }

  /** No catch-up has been cut short: none has begun before the first, and that one started from the build. */
  predicate Unbroken(phase: MergePhase, a: Attempts) {
    && (phase == ReplacementBuilt ==> !a.read)
    && (phase.HasCaughtUp() ==> a.carried == {})
  }

  /**
   * Where the rows of the last reads come from: a catch-up inside the stretch read them inside it,
   * and none after it has touched what is known of them.
   */
  ghost predicate ReadInside(d: Data, a: Attempts, phase: MergePhase, a': Attempts, phase': MergePhase) {
    phase'.HasCaughtUp() ==>
      if phase.HasCaughtUp() then a' == a.(moved := a'.moved)
      else Grew(d.lower, a'.lowerAtRead) && Grew(d.upper, a'.upperAtRead)
  }

  /** An attempt in progress keeps what it began from, and rows that moved have moved. */
  predicate SameStart(a: Attempts, a': Attempts) {
    a'.read == a.read && a'.carried == a.carried && a'.leftover == a.leftover && (a.moved ==> a'.moved)
  }

  /**
   * What a caught-up replacement holds: exactly the rows last read if and only if nothing stale was
   * left, as nothing is without an attempt cut short before; and the newest rows of both sources on
   * the same condition if they have been quiet since those reads, unconditionally if since the first.
   */
  ghost predicate CaughtUpMeans(plan: MergePlan, ts: Timestamp, d: Data, a: Attempts) {
    && (HoldsBoth(d.installed, a.LowerRead(), a.UpperRead()) <==> NothingStale(plan, ts, d, a))
    && (a.carried == {} ==> HoldsBoth(d.installed, a.LowerRead(), a.UpperRead()))
    && (d.lower == a.lowerAtRead && d.upper == a.upperAtRead ==> (Complete(d) <==> NothingStale(plan, ts, d, a)))
    && (!a.moved ==> Complete(d))
  }

  lemma ReplayedIff(plan: MergePlan, ts: Timestamp, d: Data, a: Attempts)
    requires Runnable(plan) && Replayed(plan, ts, d, a)
    ensures CaughtUpMeans(plan, ts, d, a)
  {
    var p, q := plan.lower.partition, plan.upper.partition;
    RangesDisjoint(plan);
    RecoveredIff(d.LowerAt(ts), a.LowerRead(), a.leftover, d.installed, p, a.carried);
    RecoveredIff(d.UpperAt(ts), a.UpperRead(), a.leftover, d.installed, q, a.carried);
    UnionIff(a.LowerRead(), a.UpperRead(), d.installed, p, q);
  }

  lemma LowerReplayed(plan: MergePlan, ts: Timestamp, d: Data, a: Attempts, x: Content, touched: set<Key>)
    requires Runnable(plan) && Replayable(plan, ts, d, a) && a.read
    requires a.touched <= touched && forall k :: k in touched - a.touched ==> plan.lower.partition.Contains(k)
    requires forall k :: !plan.lower.partition.Contains(k) ==> Lookup(x, k) == Lookup(d.installed, k)
    requires Untouched(d.LowerAt(ts), x, plan.lower.partition, touched)
    requires !a.moved ==> Fresh(d.LowerNow(), x, plan.lower.partition, touched)
    ensures Replayable(plan, ts, d.(installed := x), a.(touched := touched))
  {
    RangesDisjoint(plan);
    forall k | k in x ensures plan.lower.partition.Contains(k) || plan.upper.partition.Contains(k) {
      assert !plan.lower.partition.Contains(k) ==> Lookup(x, k) == Lookup(d.installed, k);
    }
  }

  /** Both ranges replayed. */
  lemma UpperDone(plan: MergePlan, ts: Timestamp, d: Data, a: Attempts, x: Content)
    requires Inside(plan, x) && Began(plan, ts, d, a) && LowerCaught(plan, ts, d.(installed := x), a)
    requires forall k :: plan.upper.partition.Contains(k) ==> Lookup(d.installed, k) == Lookup(a.leftover, k)
    requires Caught(d.UpperAt(ts), d.UpperNow(), d.installed, x, plan.upper.partition) && Within(d.UpperNow(), plan.upper.partition)
    ensures Replayed(plan, ts, d.(installed := x), a.(upperAtRead := d.upper))
  {
    GrewNot(d.upper);
  }

  lemma WritesKeepStart(plan: MergePlan, ts: Timestamp, d: Data, d': Data, a: Attempts)
    requires d'.installed == d.installed && d'.LowerAt(ts) == d.LowerAt(ts) && d'.UpperAt(ts) == d.UpperAt(ts)
    requires Grew(d.lower, d'.lower)
    ensures Starting(plan, ts, d, a) ==> Starting(plan, ts, d', a.(moved := true))
    ensures HalfCaught(plan, ts, d, a) ==> HalfCaught(plan, ts, d', a.(moved := true))
  {
    if HalfCaught(plan, ts, d, a) {
      GrewTrans(a.lowerAtRead, d.lower, d'.lower);
    }
  }

  lemma UpperReplayed(plan: MergePlan, ts: Timestamp, d: Data, a: Attempts, x: Content, touched: set<Key>)
    requires Runnable(plan) && Replayable(plan, ts, d, a) && a.read
    requires a.touched <= touched && forall k :: k in touched - a.touched ==> plan.upper.partition.Contains(k)
    requires forall k :: !plan.upper.partition.Contains(k) ==> Lookup(x, k) == Lookup(d.installed, k)
    requires Untouched(d.UpperAt(ts), x, plan.upper.partition, touched)
    requires !a.moved ==> Fresh(d.UpperNow(), x, plan.upper.partition, touched)
    ensures Replayable(plan, ts, d.(installed := x), a.(touched := touched))
    ensures LowerCaught(plan, ts, d, a) ==> LowerCaught(plan, ts, d.(installed := x), a.(touched := touched))
    ensures forall k :: k in x ==> plan.lower.partition.Contains(k) || plan.upper.partition.Contains(k)
  {
    RangesDisjoint(plan);
    forall k | k in x ensures plan.lower.partition.Contains(k) || plan.upper.partition.Contains(k) {
      assert !plan.upper.partition.Contains(k) ==> Lookup(x, k) == Lookup(d.installed, k);
    }
  }

  // ---------------------------------------------------------------- layouts

  /** Where the layout may be, given the last durable phase. */
  ghost predicate MetaOk(start: Layout, tabs: Layout, plan: MergePlan, phase: MergePhase)
    decreases phase.Rank()
  {
    match phase
    case Started => OthersKept(start, tabs, plan) && Before(tabs, plan)
    case MarkedMerging => MetaOk(start, tabs, plan, Started) && BothMarked(tabs, plan)
    case ReplacementCreated => MetaOk(start, tabs, plan, MarkedMerging) && plan.replacementId in tabs
    case SnapshotsPinned => MetaOk(start, tabs, plan, ReplacementCreated)
    case ReplacementBuilt => MetaOk(start, tabs, plan, SnapshotsPinned)
    case CaughtUp => MetaOk(start, tabs, plan, ReplacementBuilt) || JustPublished(start, tabs, plan)
    case Published => OthersKept(start, tabs, plan) && After(tabs, plan)
    case SourcesRetired => MetaOk(start, tabs, plan, MergePhase.Published) && plan.lower.tabletId !in tabs && plan.upper.tabletId !in tabs
  }

  /** Published, with both sources still retiring. */
  ghost predicate JustPublished(start: Layout, tabs: Layout, plan: MergePlan) {
    && OthersKept(start, tabs, plan) && After(tabs, plan)
    && NotRetired(tabs, plan.lower, plan.PublishGeneration()) && NotRetired(tabs, plan.upper, plan.PublishGeneration())
  }

  lemma JustPublishedFits(start: Layout, tabs: Layout, plan: MergePlan)
    requires JustPublished(start, tabs, plan)
    ensures MetaOk(start, tabs, plan, MergePhase.CaughtUp) && MetaOk(start, tabs, plan, MergePhase.Published)
  {
  }

  /** Up to the build the sources serve, marked from the first phase on, with the replacement there from the second. */
  lemma {:induction false} ServingUntilBuilt(start: Layout, tabs: Layout, plan: MergePlan, phase: MergePhase)
    requires MetaOk(start, tabs, plan, phase) && phase.Rank() <= ReplacementBuilt.Rank()
    ensures OthersKept(start, tabs, plan) && Before(tabs, plan)
    ensures phase.Rank() >= MarkedMerging.Rank() ==> BothMarked(tabs, plan)
    ensures phase.Rank() >= ReplacementCreated.Rank() ==> plan.replacementId in tabs
    decreases phase.Rank()
  {
    match phase
    case Started =>
    case MarkedMerging => ServingUntilBuilt(start, tabs, plan, Started);
    case ReplacementCreated => ServingUntilBuilt(start, tabs, plan, MarkedMerging);
    case SnapshotsPinned => ServingUntilBuilt(start, tabs, plan, ReplacementCreated);
    case ReplacementBuilt => ServingUntilBuilt(start, tabs, plan, SnapshotsPinned);
  }

  lemma CaughtUpPublishable(start: Layout, tabs: Layout, plan: MergePlan)
    requires MetaOk(start, tabs, plan, MergePhase.CaughtUp)
    ensures LayoutOk(start, tabs, plan)
    ensures NotRetired(tabs, plan.lower, plan.PublishGeneration()) && NotRetired(tabs, plan.upper, plan.PublishGeneration())
  {
    if !JustPublished(start, tabs, plan) {
      ServingUntilBuilt(start, tabs, plan, ReplacementBuilt);
    }
  }

  /**
   * What the durable phase says of the layout: before or after publication and nothing in between,
   * the sources marked and then the replacement there until ownership moves, and in the end no source.
   */
  lemma PhaseLayout(start: Layout, tabs: Layout, plan: MergePlan, phase: MergePhase)
    requires MetaOk(start, tabs, plan, phase)
    ensures LayoutOk(start, tabs, plan)
    ensures phase.Rank() >= MarkedMerging.Rank() ==> BothMarked(tabs, plan) || After(tabs, plan)
    ensures phase.Rank() >= ReplacementCreated.Rank() ==> plan.replacementId in tabs
    ensures phase.Rank() <= ReplacementBuilt.Rank() ==> Before(tabs, plan)
    ensures phase.Rank() >= MergePhase.Published.Rank() ==> After(tabs, plan)
    ensures phase == SourcesRetired ==> plan.lower.tabletId !in tabs && plan.upper.tabletId !in tabs
  {
    if phase.Rank() <= ReplacementBuilt.Rank() {
      ServingUntilBuilt(start, tabs, plan, phase);
    } else if phase == MergePhase.CaughtUp && !JustPublished(start, tabs, plan) {
      ServingUntilBuilt(start, tabs, plan, ReplacementBuilt);
    }
  }

  /** Every descriptor stays or moves to a higher generation; only the replacement appears. */
  ghost predicate Rises(tabs: Layout, tabs': Layout, r: TabletId) {
    && (forall t :: t in tabs' && t in tabs ==> tabs'[t] == tabs[t] || tabs[t].generation < tabs'[t].generation)
    && (forall t :: t in tabs' && t !in tabs ==> t == r)
    && (r in tabs ==> r in tabs')
  }

  lemma RisesTrans(tabs: Layout, mid: Layout, tabs': Layout, r: TabletId)
    requires Rises(tabs, mid, r) && Rises(mid, tabs', r)
    ensures Rises(tabs, tabs', r)
  {
  }

  lemma SetRises(tabs: Layout, d: TabletDescriptor, r: TabletId)
    requires d.tabletId in tabs || d.tabletId == r
    ensures Rises(tabs, AfterSet(tabs, d).1, r)
  {
  }

  // ---------------------------------------------------------------- moments

  /** All of a merge that a step or the world can move. */
  datatype Moment = Moment(tabs: Layout, data: Data, attempts: Attempts, phase: MergePhase)

  /** The invariant of a merge. */
  ghost predicate Sound(plan: MergePlan, start: Layout, ts: Timestamp, m: Moment) {
    match m
    case Moment(tabs, d, a, phase) =>
      && Runnable(plan) && StartsAt(start, plan)
      && MetaOk(start, tabs, plan, phase) && DataOk(plan, ts, d, a, phase)
  }

  /** Where a step leaves the rows alone, a layout fit for the phase is all it owes. */
  lemma LayoutSound(plan: MergePlan, start: Layout, ts: Timestamp, m: Moment, m': Moment)
    requires Sound(plan, start, ts, m) && m'.data == m.data && m'.attempts == m.attempts
    requires m'.phase == m.phase || (m'.phase == m.phase.Next() && (m.phase.IsHidden() || m.phase.HasCaughtUp()))
    requires MetaOk(start, m'.tabs, plan, m'.phase)
    ensures Sound(plan, start, ts, m')
  {
  }

  /** One stretch of a run: generations rise, only commits move the rows, phases go onward, and reads are accounted for. */
  ghost predicate Continues(plan: MergePlan, m: Moment, m': Moment) {
    match m'
    case Moment(tabs, d, a, phase) =>
      && Rises(m.tabs, tabs, plan.replacementId) && Stirred(m.data, m.attempts, d, a)
      && m.phase.Rank() <= phase.Rank() && ReadInside(m.data, m.attempts, m.phase, a, phase)
  }

  lemma ContinuesTrans(plan: MergePlan, m: Moment, mid: Moment, m': Moment)
    requires Continues(plan, m, mid) && Continues(plan, mid, m')
    ensures Continues(plan, m, m')
  {
    RisesTrans(m.tabs, mid.tabs, m'.tabs, plan.replacementId);
    StirredTrans(m.data, m.attempts, mid.data, mid.attempts, m'.data, m'.attempts);
    if m'.phase.HasCaughtUp() && !mid.phase.HasCaughtUp() {
      GrewTrans(m.data.lower, mid.data.lower, m'.attempts.lowerAtRead);
      GrewTrans(m.data.upper, mid.data.upper, m'.attempts.upperAtRead);
    }
  }

  lemma NextRanks(phase: MergePhase)
    ensures phase.Next().Rank() == phase.Rank() + if phase.SourcesRetired? then 0 else 1
    ensures phase.Rank() <= SourcesRetired.Rank()
  {
  }

  /** A step that leaves the rows and their reads alone. */
  lemma LayoutContinues(plan: MergePlan, m: Moment, m': Moment)
    requires Rises(m.tabs, m'.tabs, plan.replacementId) && (m'.phase == m.phase || m'.phase == m.phase.Next())
    requires m'.data == m.data && m'.attempts == m.attempts
    requires m.phase.HasCaughtUp() || !m'.phase.HasCaughtUp()
    ensures Continues(plan, m, m')
  {
    GrewNot(m.data.lower);
    GrewNot(m.data.upper);
  }

  /** A step that leaves the layout alone. */
  lemma RowsContinue(plan: MergePlan, m: Moment, m': Moment)
    requires m'.tabs == m.tabs && (m'.phase == m.phase || m'.phase == m.phase.Next())
    requires Stirred(m.data, m.attempts, m'.data, m'.attempts) && ReadInside(m.data, m.attempts, m.phase, m'.attempts, m'.phase)
    ensures Continues(plan, m, m')
  {
  }

  /** What the invariant says of the layout and the rows, wherever a run stops. */
  lemma RunConclusion(plan: MergePlan, start: Layout, ts: Timestamp, first: Moment, m: Moment)
    requires Sound(plan, start, ts, m) && Continues(plan, first, m)
    ensures Partitioned(start, plan.lower.tableId) ==> Partitioned(m.tabs, plan.lower.tableId)
    ensures m.phase == SourcesRetired ==> plan.lower.tabletId !in m.tabs && plan.upper.tabletId !in m.tabs
    ensures m.phase.HasCaughtUp() ==> Replayed(plan, ts, m.data, m.attempts)
    ensures m.phase.HasCaughtUp() ==> CaughtUpMeans(plan, ts, m.data, m.attempts)
    ensures !first.attempts.moved && m.data.lower == first.data.lower && m.data.upper == first.data.upper ==> !m.attempts.moved
  {
    PhaseLayout(start, m.tabs, plan, m.phase);
    DataOpens(plan, ts, m.data, m.attempts, m.phase);
    if Partitioned(start, plan.lower.tableId) {
      PartitionKept(start, m.tabs, plan);
    }
    if m.phase.HasCaughtUp() {
      ReplayedIff(plan, ts, m.data, m.attempts);
    }
  }

  /**
   * Quiet from the last reads is not enough. Over empty sources: a row is inserted, an attempt that
   * then crashes copies it, it is deleted, and the next attempt finds nothing to replay. The merge is
   * caught up with a row neither source has.
   */
  lemma CopiedThenDeletedRowSurvives(plan: MergePlan, ts: Timestamp, k: Key, v: Bytes)
    returns (inserted: Rows, first: seq<Mutation>, d: Data, a: Attempts)
    requires Runnable(plan) && plan.lower.partition.Contains(k)
    ensures inserted == Committed(map[], k, Version(ts + 1, Some(v))) && d.lower == Committed(inserted, k, Version(ts + 2, None))
    ensures IsDiff(RowsAt(inserted, ts), Current(inserted), first) && a.leftover == Applied(map[], first)
    ensures IsDiff(d.LowerAt(ts), d.LowerNow(), []) && d.upper == map[] && d.installed == a.leftover
    ensures Replayed(plan, ts, d, a) && a.lowerAtRead == d.lower && a.upperAtRead == d.upper
    ensures !NothingStale(plan, ts, d, a) && !Complete(d) && d.installed == map[k := v] && k !in d.LowerNow() && k !in d.UpperNow()
  {
    InsertedThenDeleted(ts, k, v);
    inserted, first := map[k := [Version(ts + 1, Some(v))]], [Upsert(k, v)];
    d := Data(Committed(inserted, k, Version(ts + 2, None)), map[], map[k := v]);
    a := Attempts(true, true, {k}, {k}, map[k := v], d.lower, map[]);
    assert d.LowerAt(ts) == map[] && d.LowerNow() == map[] && d.UpperAt(ts) == map[] && d.UpperNow() == map[];
    StaleCopy(plan, ts, k, v, d, a);
    UpsertDiff(k, v);
  }

  lemma UpsertDiff(k: Key, v: Bytes)
    ensures IsDiff(map[], map[k := v], [Upsert(k, v)]) && Applied(map[], [Upsert(k, v)]) == map[k := v] && IsDiff(map[], map[], [])
  {
    var m := Upsert(k, v);
    assert [m][..0] == [] && m in [m];
  }

  lemma StaleCopy(plan: MergePlan, ts: Timestamp, k: Key, v: Bytes, d: Data, a: Attempts)
    requires Runnable(plan) && plan.lower.partition.Contains(k) && d.installed == map[k := v]
    requires d.LowerAt(ts) == map[] && d.LowerNow() == map[] && d.UpperAt(ts) == map[] && d.UpperNow() == map[]
    requires a == Attempts(true, true, {k}, {k}, map[k := v], d.lower, d.upper)
    ensures Replayed(plan, ts, d, a) && !NothingStale(plan, ts, d, a) && !Complete(d)
  {
    RangesDisjoint(plan);
    GrewNot(d.lower);
    GrewNot(d.upper);
    assert k in a.carried && Lookup(a.leftover, k) == Some(v);
  }

  lemma InsertedThenDeleted(ts: Timestamp, k: Key, v: Bytes)
    ensures
      var inserted := map[k := [Version(ts + 1, Some(v))]];
      var deleted := Committed(inserted, k, Version(ts + 2, None));
      && inserted == Committed(map[], k, Version(ts + 1, Some(v)))
      && RowsAt(inserted, ts) == map[] && RowsAt(deleted, ts) == map[]
      && Current(inserted) == map[k := v] && Current(deleted) == map[]
      && AllAscending(deleted)
  {
    var v1, v2 := Version(ts + 1, Some(v)), Version(ts + 2, None);
    var inserted, deleted := map[k := [v1]], map[k := [v1, v2]];
    assert Inserted([], v1) == [v1] && Inserted([v1], v2) == [v1, v2];
    assert ChainOf(map[], k) == [] && ChainOf(inserted, k) == [v1];
    assert inserted == Committed(map[], k, v1) && deleted == Committed(inserted, k, v2);
    assert [v1, v2][..1] == [v1] && [v1][..0] == [] && Visible([v1], ts) == None;
    assert Visible([v1, v2], ts) == None;
  }

  lemma PublishRises(tabs: Layout, plan: MergePlan)
    requires plan.lower.tabletId in tabs && plan.upper.tabletId in tabs
    ensures Rises(tabs, AfterPublish(tabs, plan), plan.replacementId)
  {
    var p := plan.PublishGeneration();
    var a := AfterSet(tabs, Promoted(plan)).1;
    var b := AfterSet(a, MergeLayout.Retiring(plan.lower, p)).1;
    SetRises(tabs, Promoted(plan), plan.replacementId);
    SetRises(a, MergeLayout.Retiring(plan.lower, p), plan.replacementId);
    SetRises(b, MergeLayout.Retiring(plan.upper, p), plan.replacementId);
    RisesTrans(tabs, a, b, plan.replacementId);
    RisesTrans(tabs, b, AfterPublish(tabs, plan), plan.replacementId);
  }

  lemma WriteKept(rows: Rows, key: Key, v: Version, ts: Timestamp)
    requires AllAscending(rows) && v.ts > ts
    ensures AllAscending(Committed(rows, key, v)) && RowsAt(Committed(rows, key, v), ts) == RowsAt(rows, ts)
  {
    PlacedInOrder(ChainOf(rows, key), v, VersionTs);
    RacedAgain(rows, map[], rows, map[], ts, key, v, map[]);
    FrozenRows(rows, Committed(rows, key, v), ts, ts);
  }
}
