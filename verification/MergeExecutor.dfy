/**
 * The merge executor: eight durable phases, each redone from its start after a crash, while the
 * sources keep taking writes throughout.
 */
module MergeExecution {
  import opened Common
  import opened DdlTypes
  import opened Keyspace
  import opened IndexBuild
  import opened Partition
  import opened TabletMeta
  import opened MergePlans
  import opened MergeData
  import opened MergeLayout
  import opened MergeState

  datatype StepResult = Stepped | Crashed | KeyOutsideSource | SourceRetained

  /** The process reaches the next statement, or dies before it. */
  method Survive(mortal: bool) returns (r: StepResult)
    ensures r == Stepped || (r == Crashed && mortal)
  {
    var dies := Dies(mortal);
    r := if dies then Crashed else Stepped;
  }

  // ------------------------------------------------------------------- rows

  /** Copy one pinned snapshot into the staged build; a stray key fails closed. */
  method StageSnapshot(snapshot: Content, p: PartitionBounds, x: Content, mortal: bool) returns (r: StepResult, y: Content)
    ensures r != SourceRetained && (r == Crashed ==> mortal) && (r == KeyOutsideSource ==> !Within(snapshot, p))
    ensures r == Stepped ==> Within(snapshot, p) && y == x + snapshot
  {
    y := x;
    var pending := snapshot.Keys;
    while pending != {}
      invariant pending <= snapshot.Keys && y == x + (snapshot - pending)
      invariant forall k :: k in snapshot && k !in pending ==> p.Contains(k)
    {
      var dies := Dies(mortal);
      if dies {
        return Crashed, y;
      }
      var k :| k in pending;
      if !p.Contains(k) {
        return KeyOutsideSource, y;
      }
      y := y[k := snapshot[k]];
      pending := pending - {k};
    }
    assert snapshot - pending == snapshot;
    r := Stepped;
  }

  /** Replay one source's deltas over whatever earlier attempts left; a stray key fails closed. */
  method Replay(before: Content, now: Content, p: PartitionBounds, x: Content, mortal: bool, ghost touched: set<Key>)
    returns (r: StepResult, y: Content, ghost touched': set<Key>)
    ensures r != SourceRetained && (r == Crashed ==> mortal)
    ensures r == KeyOutsideSource ==> exists k :: Lookup(before, k) != Lookup(now, k) && !p.Contains(k)
    ensures touched <= touched' && forall k :: k in touched' - touched ==> p.Contains(k)
    ensures forall k :: !p.Contains(k) ==> Lookup(y, k) == Lookup(x, k)
    ensures Untouched(before, x, p, touched) ==> Untouched(before, y, p, touched')
    ensures Fresh(now, x, p, touched) ==> Fresh(now, y, p, touched')
    ensures r == Stepped ==> Caught(before, now, x, y, p)
    ensures r == Stepped && Within(before, p) ==> Within(now, p)
  {
    var muts := DeltasAfter(before, now);
    y, touched' := x, touched;
    for i := 0 to |muts|
      invariant y == Applied(x, muts[..i])
      invariant touched <= touched' && forall k :: k in touched' - touched ==> p.Contains(k)
      invariant forall k :: !p.Contains(k) ==> Lookup(y, k) == Lookup(x, k)
      invariant Untouched(before, x, p, touched) ==> Untouched(before, y, p, touched')
      invariant Fresh(now, x, p, touched) ==> Fresh(now, y, p, touched')
      invariant forall j :: 0 <= j < i ==> p.Contains(muts[j].key)
    {
      var dies := Dies(mortal);
      if dies {
        return Crashed, y, touched';
      }
      var m := muts[i];
      assert m in muts;
      if !p.Contains(m.key) {
        return KeyOutsideSource, y, touched';
      }
      assert muts[..i + 1][..i] == muts[..i];
      MutationKeeps(before, now, y, p, touched', m);
      y, touched' := Put(y, m.key, MutationOf(m)), touched' + {m.key};
    }
    assert muts[..|muts|] == muts;
    ReplayedIs(before, now, x, muts, p);
    ReplayedWithin(before, now, muts, p);
    r := Stepped;
  }

  /** The lower source's turn, on the rows as they stand. */
  method ReplayLowerRows(plan: MergePlan, ts: Timestamp, d: Data, mortal: bool, ghost a: Attempts) returns (r: StepResult, x: Content, ghost a': Attempts)
    requires Runnable(plan) && Starting(plan, ts, d, a)
    ensures r != SourceRetained && a' == a.(touched := a'.touched, lowerAtRead := d.lower)
    ensures (r == Crashed ==> mortal) && (r == KeyOutsideSource ==> !Within(d.LowerNow(), plan.lower.partition))
    ensures Replayable(plan, ts, d.(installed := x), a')
    ensures r == Stepped ==> HalfCaught(plan, ts, d.(installed := x), a')
  {
    RangesDisjoint(plan);
    GrewNot(d.lower);
    ghost var touched;
    r, x, touched := Replay(d.LowerAt(ts), d.LowerNow(), plan.lower.partition, d.installed, mortal, a.touched);
    LowerReplayed(plan, ts, d, a, x, touched);
    a' := a.(touched := touched, lowerAtRead := d.lower);
  }

  /** The upper source's turn, the lower one's keys being out of its range. */
  method ReplayUpperRows(plan: MergePlan, ts: Timestamp, d: Data, mortal: bool, ghost a: Attempts) returns (r: StepResult, x: Content, ghost a': Attempts)
    requires Runnable(plan) && HalfCaught(plan, ts, d, a)
    ensures r != SourceRetained && a' == a.(touched := a'.touched, upperAtRead := d.upper)
    ensures (r == Crashed ==> mortal) && (r == KeyOutsideSource ==> !Within(d.UpperNow(), plan.upper.partition))
    ensures Replayable(plan, ts, d.(installed := x), a')
    ensures r == Stepped ==> Replayed(plan, ts, d.(installed := x), a')
  {
    ghost var touched;
    r, x, touched := Replay(d.UpperAt(ts), d.UpperNow(), plan.upper.partition, d.installed, mortal, a.touched);
    UpperReplayed(plan, ts, d, a, x, touched);
    if r == Stepped {
      UpperDone(plan, ts, d, a.(touched := touched), x);
    }
    a' := a.(touched := touched, upperAtRead := d.upper);
  }

  /** Some source holds a key that is not its own, at the pinned snapshot or now. */
  ghost predicate Strays(plan: MergePlan, ts: Timestamp, d: Data) {
    || !Within(d.LowerAt(ts), plan.lower.partition) || !Within(d.UpperAt(ts), plan.upper.partition)
    || !Within(d.LowerNow(), plan.lower.partition) || !Within(d.UpperNow(), plan.upper.partition)
  }

  class MergeExecutor {
    const plan: MergePlan
    /** Whether the process may die. */
    const mortal: bool
    const mergeTs: Timestamp
    const meta: InMemoryMetaPlane
    ghost const start: Layout
    var phase: MergePhase
    var lowerRows: Rows
    var upperRows: Rows
    var staged: Option<Content>
    var installed: Content
    var retention: Option<(nat, nat)>
    ghost var attempts: Attempts
    /** Requests pinned at old generations since publication, whether or not a guard still counts them. */
    ghost var pinned: (nat, nat)
    ghost var resumed: bool

    /** Begin a merge the planner allowed, over the layout it was planned against. */
    constructor (plan: MergePlan, mergeTs: Timestamp, meta: InMemoryMetaPlane, lowerRows: Rows, upperRows: Rows, installed: Content, mortal: bool)
      requires Runnable(plan) && StartsAt(meta.tablets, plan) && AllAscending(lowerRows) && AllAscending(upperRows)
      ensures Valid() && phase == Started && this.plan == plan && this.meta == meta && this.mortal == mortal && start == meta.tablets
    {
      this.plan, this.mergeTs, this.meta, this.start, this.mortal := plan, mergeTs, meta, meta.tablets, mortal;
      this.phase, this.lowerRows, this.upperRows := Started, lowerRows, upperRows;
      this.staged, this.installed, this.retention := None, installed, None;
      this.attempts, this.pinned, this.resumed := NO_ATTEMPT, (0, 0), false;
    }

    ghost function View(): Data
      reads this
    {
      Data(lowerRows, upperRows, installed)
    }

    ghost function Now(): Moment
      reads this, meta
    {
      Moment(meta.tablets, View(), attempts, phase)
    }

    /** Why a step did not complete: the process died, a source holds a stray key, or a request is pinned that the guard counts. */
    ghost predicate Justified(r: StepResult)
      reads this
    {
      match r
      case Stepped => true
      case Crashed => mortal
      case KeyOutsideSource => Strays(plan, mergeTs, View())
      case SourceRetained => !resumed && pinned != (0, 0)
    }

    /** The guard counts the pinned requests until a resume loses it. */
    ghost predicate GuardOk()
      reads this
    {
      && (phase == MergePhase.Published && !resumed ==> retention == Some(pinned))
      && (resumed ==> retention == None)
    }

    ghost predicate Valid()
      reads this, meta
    {
      GuardOk() && Sound(plan, start, mergeTs, Now())
    }

    // ---------------------------------------------------------- the world

    /** Any writes land on the sources, above the merge timestamp, whatever the executor is doing. */
    method SourceWrites()
      requires AllAscending(lowerRows) && AllAscending(upperRows)
      modifies `lowerRows, `upperRows, `attempts
      ensures AllAscending(lowerRows) && AllAscending(upperRows)
      ensures View().LowerAt(mergeTs) == old(View().LowerAt(mergeTs)) && View().UpperAt(mergeTs) == old(View().UpperAt(mergeTs))
      ensures attempts == old(attempts).(moved := true) || (attempts == old(attempts) && View() == old(View()))
      ensures Stirred(old(View()), old(attempts), View(), attempts)
    {
      GrewNot(lowerRows);
      GrewNot(upperRows);
      var n: nat :| true;
      for i := 0 to n
        invariant AllAscending(lowerRows) && AllAscending(upperRows)
        invariant View().LowerAt(mergeTs) == old(View().LowerAt(mergeTs)) && View().UpperAt(mergeTs) == old(View().UpperAt(mergeTs))
        invariant attempts == old(attempts).(moved := true) || (attempts == old(attempts) && View() == old(View()))
        invariant Stirred(old(View()), old(attempts), View(), attempts)
      {
        ghost var d, a := View(), attempts;
        SourceWrite();
        StirredTrans(old(View()), old(attempts), d, a, View(), attempts);
      }
    }

    method SourceWrite()
      requires AllAscending(lowerRows) && AllAscending(upperRows)
      modifies `lowerRows, `upperRows, `attempts
      ensures AllAscending(lowerRows) && AllAscending(upperRows)
      ensures View().LowerAt(mergeTs) == old(View().LowerAt(mergeTs)) && View().UpperAt(mergeTs) == old(View().UpperAt(mergeTs))
      ensures attempts == old(attempts).(moved := true) && Stirred(old(View()), old(attempts), View(), attempts)
    {
      var key: Key, value: Option<Bytes> := *, *;
      var ts: Timestamp :| ts > mergeTs;
      GrewNot(lowerRows);
      GrewNot(upperRows);
      if * {
        lowerRows := AfterWrite(lowerRows, key, Version(ts, value));
      } else {
        upperRows := AfterWrite(upperRows, key, Version(ts, value));
      }
      attempts := attempts.(moved := true);
    }

    method AfterWrite(rows: Rows, key: Key, v: Version) returns (rows': Rows)
      requires AllAscending(rows) && v.ts > mergeTs
      ensures AllAscending(rows') && RowsAt(rows', mergeTs) == RowsAt(rows, mergeTs) && Grew(rows, rows') && rows' != rows
    {
      WriteKept(rows, key, v, mergeTs);
      GrewBy(rows, key, v);
      rows' := Committed(rows, key, v);
    }

    /** Writes between two phases. */
    method WritesBetweenPhases()
      requires Valid()
      modifies `lowerRows, `upperRows, `attempts
      ensures Valid() && Stirred(old(View()), old(attempts), View(), attempts) && attempts == old(attempts).(moved := attempts.moved)
    {
      ghost var d := View();
      DataOpens(plan, mergeTs, d, attempts, phase);
      SourceWrites();
      if attempts != old(attempts) || View() != d {
        WritesKeepData(plan, mergeTs, d, View(), old(attempts), phase);
      }
    }

    /** Requests routed at an old generation pin and unpin once the sources are retiring, on the guard if there is one. */
    method RequestsMove()
      requires Valid()
      modifies `retention, `pinned
      ensures Valid() && (retention.Some? <==> old(retention).Some?)
    {
      if * {
        var lower: nat, upper: nat :| true;
        pinned := (lower, upper);
        if retention.Some? {
          retention := Some((lower, upper));
        }
      }
    }

    // ------------------------------------------------------ phase bodies

    ghost predicate Serving()
      reads this, meta
    {
      Runnable(plan) && OthersKept(start, meta.tablets, plan) && Before(meta.tablets, plan)
    }

    ghost predicate Switched()
      reads this, meta
    {
      Runnable(plan) && OthersKept(start, meta.tablets, plan) && After(meta.tablets, plan)
    }

    /** Mark both sources, each one generation on; dying between them leaves the lower one marked. */
    method MarkSourcesMerging() returns (r: StepResult)
      requires Serving()
      modifies meta
      ensures Serving() && Rises(old(meta.tablets), meta.tablets, plan.replacementId)
      ensures r == Stepped || (r == Crashed && mortal)
      ensures r == Stepped ==> BothMarked(meta.tablets, plan)
      ensures meta.tablets[plan.lower.tabletId] == Marked(plan.lower)
    {
      MarkSource(plan.lower);
      r := Survive(mortal);
      if r == Crashed {
        return;
      }
      ghost var mid := meta.tablets;
      MarkSource(plan.upper);
      RisesTrans(old(meta.tablets), mid, meta.tablets, plan.replacementId);
      r := Survive(mortal);
    }

    method MarkSource(d: TabletDescriptor)
      requires Serving() && (d == plan.lower || d == plan.upper)
      modifies meta
      ensures Serving() && Rises(old(meta.tablets), meta.tablets, plan.replacementId)
      ensures meta.tablets == old(meta.tablets)[d.tabletId := Marked(d)]
    {
      MarkKeeps(start, meta.tablets, plan, d);
      SetRises(meta.tablets, Marked(d), plan.replacementId);
      var marked := meta.SetTablet(Marked(d));
    }

    /** The hidden replacement appears, and nothing else moves. */
    method CreateReplacement()
      requires Serving()
      modifies meta
      ensures Serving() && Rises(old(meta.tablets), meta.tablets, plan.replacementId)
      ensures meta.tablets == old(meta.tablets)[plan.replacementId := plan.Replacement()]
    {
      CreateKeeps(start, meta.tablets, plan);
      SetRises(meta.tablets, plan.Replacement(), plan.replacementId);
      var created := meta.SetTablet(plan.Replacement());
    }

    /** Stage both pinned snapshots, then swap the build in. */
    method BuildReplacement() returns (r: StepResult)
      requires Runnable(plan)
      modifies `staged, `installed, `attempts
      ensures r != SourceRetained && Justified(r)
      ensures r == Stepped ==> attempts == NO_ATTEMPT && Replayable(plan, mergeTs, View(), attempts)
      ensures r == Stepped ==> HoldsBoth(installed, View().LowerAt(mergeTs), View().UpperAt(mergeTs))
      ensures attempts == old(attempts) || attempts == NO_ATTEMPT
    {
      var x: Content;
      staged := Some(map[]);
      r, x := StageSnapshot(RowsAt(lowerRows, mergeTs), plan.lower.partition, map[], mortal);
      staged := Some(x);
      if r != Stepped {
        return;
      }
      r, x := StageSnapshot(RowsAt(upperRows, mergeTs), plan.upper.partition, x, mortal);
      staged := Some(x);
      if r != Stepped {
        return;
      }
      installed, staged, attempts := x, None, NO_ATTEMPT;
      InstallBuilds(plan, mergeTs, View());
      r := Survive(mortal);
    }

    /**
     * Read and replay both sources' deltas, over whatever earlier attempts left, while writes land
     * before and between the two reads.
     */
    method CatchUpReplacement() returns (r: StepResult)
      requires Runnable(plan) && DataOk(plan, mergeTs, View(), attempts, ReplacementBuilt)
      modifies `lowerRows, `upperRows, `installed, `attempts
      ensures r != SourceRetained && Justified(r) && DataOk(plan, mergeTs, View(), attempts, if r == Stepped then MergePhase.CaughtUp else ReplacementBuilt)
      ensures Stirred(old(View()), old(attempts), View(), attempts)
      ensures attempts.carried == old(attempts.touched) && attempts.leftover == old(installed)
      ensures !old(attempts.read) ==> attempts.carried == {}
      ensures r == Stepped ==> Grew(old(lowerRows), attempts.lowerAtRead) && Grew(attempts.lowerAtRead, lowerRows)
      ensures r == Stepped ==> Grew(old(upperRows), attempts.upperAtRead) && attempts.upperAtRead == upperRows
      ensures r == Stepped ==> CaughtUpMeans(plan, mergeTs, View(), attempts)
    {
      attempts := attempts.(read := true, moved := attempts.read && attempts.moved, carried := attempts.touched, leftover := installed);
      r := ReplayLower();
      if r != Stepped {
        return;
      }
      ghost var d, a := View(), attempts;
      r := ReplayUpper();
      StirredTrans(old(View()), old(attempts), d, a, View(), attempts);
      if r != Stepped {
        return;
      }
      ReplayedIff(plan, mergeTs, View(), attempts);
      r := Survive(mortal);
    }

    method ReplayLower() returns (r: StepResult)
      requires Runnable(plan) && AllAscending(lowerRows) && AllAscending(upperRows) && Starting(plan, mergeTs, View(), attempts)
      modifies `lowerRows, `upperRows, `installed, `attempts
      ensures AllAscending(lowerRows) && AllAscending(upperRows) && SameStart(old(attempts), attempts)
      ensures Stirred(old(View()), old(attempts), View(), attempts) && attempts.lowerAtRead == lowerRows
      ensures r != SourceRetained && Justified(r) && Replayable(plan, mergeTs, View(), attempts)
      ensures r == Stepped ==> HalfCaught(plan, mergeTs, View(), attempts)
    {
      WritesInAttempt();
      r, installed, attempts := ReplayLowerRows(plan, mergeTs, Data(lowerRows, upperRows, installed), mortal, attempts);
    }

    method ReplayUpper() returns (r: StepResult)
      requires Runnable(plan) && AllAscending(lowerRows) && AllAscending(upperRows) && HalfCaught(plan, mergeTs, View(), attempts)
      modifies `lowerRows, `upperRows, `installed, `attempts
      ensures AllAscending(lowerRows) && AllAscending(upperRows) && SameStart(old(attempts), attempts)
      ensures Stirred(old(View()), old(attempts), View(), attempts)
      ensures attempts.upperAtRead == upperRows && attempts.lowerAtRead == old(attempts).lowerAtRead
      ensures r != SourceRetained && Justified(r) && Replayable(plan, mergeTs, View(), attempts)
      ensures r == Stepped ==> Replayed(plan, mergeTs, View(), attempts)
    {
      WritesInAttempt();
      r, installed, attempts := ReplayUpperRows(plan, mergeTs, Data(lowerRows, upperRows, installed), mortal, attempts);
    }

    /** Writes between two reads of an attempt. */
    method WritesInAttempt()
      requires AllAscending(lowerRows) && AllAscending(upperRows)
      modifies `lowerRows, `upperRows, `attempts
      ensures AllAscending(lowerRows) && AllAscending(upperRows) && Stirred(old(View()), old(attempts), View(), attempts)
      ensures attempts == old(attempts).(moved := attempts.moved) && (old(attempts).moved ==> attempts.moved)
      ensures old(Starting(plan, mergeTs, View(), attempts)) ==> Starting(plan, mergeTs, View(), attempts)
      ensures old(HalfCaught(plan, mergeTs, View(), attempts)) ==> HalfCaught(plan, mergeTs, View(), attempts)
    {
      ghost var d := View();
      SourceWrites();
      if attempts != old(attempts) || View() != d {
        WritesKeepStart(plan, mergeTs, d, View(), old(attempts));
      }
    }

    /** One meta command: the replacement serves, the sources retire. */
    method PublishReplacement()
      requires Runnable(plan) && Publishable()
      modifies meta
      ensures Switched() && Publishable() && Rises(old(meta.tablets), meta.tablets, plan.replacementId)
    {
      CommandIs(plan);
      PublishKeeps(start, meta.tablets, plan);
      PublishRises(meta.tablets, plan);
      ApplyCommand(CommandOf(plan).value);
    }

    /** Both sources are still there, serving or already retiring. */
    ghost predicate Publishable()
      reads this, meta
    {
      && LayoutOk(start, meta.tablets, plan)
      && NotRetired(meta.tablets, plan.lower, plan.PublishGeneration()) && NotRetired(meta.tablets, plan.upper, plan.PublishGeneration())
    }

    method ApplyCommand(command: MergePublishCommand)
      modifies meta
      ensures meta.tablets == AfterSet(AfterSet(AfterSet(old(meta.tablets), command.replacement).1, command.lower).1, command.upper).1
    {
      var replacement := meta.SetTablet(command.replacement);
      var lower := meta.SetTablet(command.lower);
      var upper := meta.SetTablet(command.upper);
    }

    /** Retire one source, then forget it. */
    method RemoveSource(d: TabletDescriptor) returns (crashed: bool)
      requires Switched() && (d == plan.lower || d == plan.upper)
      modifies meta
      ensures Switched() && Rises(old(meta.tablets), meta.tablets, plan.replacementId)
      ensures if crashed then mortal else d.tabletId !in meta.tablets
      ensures forall t :: t in meta.tablets ==> t in old(meta.tablets)
    {
      if d.tabletId !in meta.tablets {
        return false;
      }
      if meta.tablets[d.tabletId].state != Retired {
        RetireSource(d);
      }
      crashed := Dies(mortal);
      if crashed {
        return;
      }
      ghost var mid := meta.tablets;
      RemoveKeeps(start, meta.tablets, plan, d);
      var removed := meta.RemoveTablet(d.tabletId, plan.PublishGeneration() + 1);
      RisesTrans(old(meta.tablets), mid, meta.tablets, plan.replacementId);
      crashed := false;
    }

    method RetireSource(d: TabletDescriptor)
      requires Switched() && (d == plan.lower || d == plan.upper)
      requires d.tabletId in meta.tablets && meta.tablets[d.tabletId].state != Retired
      modifies meta
      ensures Switched() && Rises(old(meta.tablets), meta.tablets, plan.replacementId)
      ensures meta.tablets.Keys == old(meta.tablets).Keys
      ensures meta.tablets[d.tabletId] == RetiredAt(d, plan.PublishGeneration())
    {
      RetireKeeps(start, meta.tablets, plan, d);
      SetRises(meta.tablets, RetiredAt(d, plan.PublishGeneration()), plan.replacementId);
      var retired := meta.SetTablet(RetiredAt(d, plan.PublishGeneration()));
    }

    /** Requests the guard counts keep both sources; without a guard nothing does. */
    method RemoveSources() returns (r: StepResult)
      requires Switched()
      modifies meta
      ensures Switched() && Rises(old(meta.tablets), meta.tablets, plan.replacementId)
      ensures r != KeyOutsideSource && (r == Crashed ==> mortal) && (r == SourceRetained <==> retention.Some? && retention.value != (0, 0))
      ensures r == SourceRetained ==> meta.tablets == old(meta.tablets)
      ensures r == Stepped ==> plan.lower.tabletId !in meta.tablets && plan.upper.tabletId !in meta.tablets
    {
      if retention.Some? && retention.value != (0, 0) {
        return SourceRetained;
      }
      var first := RemoveSource(plan.lower);
      if first {
        return Crashed;
      }
      ghost var mid := meta.tablets;
      var second := RemoveSource(plan.upper);
      RisesTrans(old(meta.tablets), mid, meta.tablets, plan.replacementId);
      if second {
        return Crashed;
      }
      r := Survive(mortal);
    }

    // --------------------------------------------------------------- steps

    /** The next phase, made durable once its work is done. */
    method Step() returns (r: StepResult)
      requires Valid()
      modifies this, meta
      ensures Justified(r)
      ensures Valid() && Continues(plan, old(Now()), Now())
      ensures r == Stepped && Unbroken(old(phase), old(attempts)) ==> Unbroken(phase, attempts)
      ensures phase == if r == Stepped then old(phase).Next() else old(phase)
      ensures old(phase) == MergePhase.Published ==> (r == SourceRetained <==> !old(resumed) && old(pinned) != (0, 0))
    {
      if phase.IsHidden() {
        r := StepHidden();
        LayoutContinues(plan, old(Now()), Now());
      } else if !phase.HasCaughtUp() {
        r := StepRows();
      } else {
        r := StepSwitch();
        LayoutContinues(plan, old(Now()), Now());
      }
    }

    /** The phases that prepare the layout. */
    method StepHidden() returns (r: StepResult)
      requires Valid() && phase.IsHidden()
      modifies meta, `phase
      ensures Justified(r)
      ensures Valid() && Rises(old(meta.tablets), meta.tablets, plan.replacementId)
      ensures phase == if r == Stepped then old(phase).Next() else old(phase)
    {
      match phase
      case Started => r := StepMark();
      case MarkedMerging => r := StepCreate();
      case ReplacementCreated => r := StepPin();
    }

    /** The phases that copy rows. */
    method StepRows() returns (r: StepResult)
      requires Valid() && (phase == SnapshotsPinned || phase == ReplacementBuilt)
      modifies `staged, `installed, `lowerRows, `upperRows, `attempts, `phase
      ensures Justified(r)
      ensures Valid() && Continues(plan, old(Now()), Now())
      ensures phase == if r == Stepped then old(phase).Next() else old(phase)
      ensures r == Stepped && Unbroken(old(phase), old(attempts)) ==> Unbroken(phase, attempts)
    {
      if phase == SnapshotsPinned {
        GrewNot(lowerRows);
        GrewNot(upperRows);
        r := StepBuild();
      } else {
        r := StepCatchUp();
      }
      RowsContinue(plan, old(Now()), Now());
    }

    /** The phases that move ownership. */
    method StepSwitch() returns (r: StepResult)
      requires Valid() && phase.HasCaughtUp()
      modifies meta, `phase, `retention, `pinned, `resumed
      ensures Justified(r)
      ensures Valid() && Rises(old(meta.tablets), meta.tablets, plan.replacementId)
      ensures phase == if r == Stepped then old(phase).Next() else old(phase)
      ensures old(phase) == MergePhase.Published ==> (r == SourceRetained <==> !old(resumed) && old(pinned) != (0, 0))
    {
      if phase == MergePhase.CaughtUp {
        r := StepPublish();
      } else if phase == MergePhase.Published {
        r := StepRemove();
      } else {
        r := Stepped;
      }
    }

    method StepMark() returns (r: StepResult)
      requires Valid() && phase == Started
      modifies meta, `phase
      ensures Justified(r)
      ensures Valid() && Rises(old(meta.tablets), meta.tablets, plan.replacementId)
      ensures phase == if r == Stepped then MarkedMerging else Started
      ensures r == Stepped ==> BothMarked(meta.tablets, plan)
    {
      ServingUntilBuilt(start, meta.tablets, plan, phase);
      r := MarkSourcesMerging();
      if r == Stepped {
        phase := MarkedMerging;
      }
      LayoutSound(plan, start, mergeTs, old(Now()), Now());
    }

    method StepCreate() returns (r: StepResult)
      requires Valid() && phase == MarkedMerging
      modifies meta, `phase
      ensures Justified(r)
      ensures Valid() && Rises(old(meta.tablets), meta.tablets, plan.replacementId)
      ensures phase == if r == Stepped then ReplacementCreated else MarkedMerging
      ensures meta.tablets == old(meta.tablets)[plan.replacementId := plan.Replacement()]
    {
      ServingUntilBuilt(start, meta.tablets, plan, phase);
      CreateReplacement();
      r := Survive(mortal);
      if r == Stepped {
        phase := ReplacementCreated;
      }
      LayoutSound(plan, start, mergeTs, old(Now()), Now());
    }

    /** Pinning holds the snapshot readable; the modelled rows keep all their versions. */
    method StepPin() returns (r: StepResult)
      requires Valid() && phase == ReplacementCreated
      modifies `phase
      ensures Justified(r)
      ensures Valid() && phase == if r == Stepped then SnapshotsPinned else ReplacementCreated
    {
      r := Survive(mortal);
      if r == Stepped {
        phase := SnapshotsPinned;
      }
    }

    method StepBuild() returns (r: StepResult)
      requires Valid() && phase == SnapshotsPinned
      modifies `staged, `installed, `attempts, `phase
      ensures Justified(r)
      ensures Valid() && phase == if r == Stepped then ReplacementBuilt else SnapshotsPinned
      ensures r == Stepped ==> HoldsBoth(installed, View().LowerAt(mergeTs), View().UpperAt(mergeTs))
      ensures attempts.moved ==> old(attempts).moved
      ensures r == Stepped ==> !attempts.read
    {
      r := BuildReplacement();
      if r == Stepped {
        phase := ReplacementBuilt;
      }
    }

    method StepCatchUp() returns (r: StepResult)
      requires Valid() && phase == ReplacementBuilt
      modifies `lowerRows, `upperRows, `installed, `attempts, `phase
      ensures Justified(r)
      ensures Valid() && phase == if r == Stepped then MergePhase.CaughtUp else ReplacementBuilt
      ensures Stirred(old(View()), old(attempts), View(), attempts)
      ensures r == Stepped ==> Grew(old(lowerRows), attempts.lowerAtRead) && Grew(old(upperRows), attempts.upperAtRead)
      ensures !old(attempts).read ==> attempts.carried == {}
    {
      r := CatchUpReplacement();
      if r == Stepped {
        phase := MergePhase.CaughtUp;
      }
    }

    /** A guard with no pins comes with the publication. */
    method StepPublish() returns (r: StepResult)
      requires Valid() && phase == MergePhase.CaughtUp
      modifies meta, `phase, `retention, `pinned, `resumed
      ensures Justified(r)
      ensures Valid() && Rises(old(meta.tablets), meta.tablets, plan.replacementId)
      ensures phase == if r == Stepped then MergePhase.Published else MergePhase.CaughtUp
      ensures r == Stepped ==> !resumed && pinned == (0, 0) && After(meta.tablets, plan)
    {
      r := PublishOrDie();
      if r == Crashed {
        return;
      }
      retention, pinned, resumed := Some((0, 0)), (0, 0), false;
      phase := MergePhase.Published;
      LayoutSound(plan, start, mergeTs, old(Now()), Now());
    }

    /** The command, dying before or after it: either way the durable phase still fits the layout. */
    method PublishOrDie() returns (r: StepResult)
      requires Valid() && phase == MergePhase.CaughtUp
      modifies meta
      ensures Valid() && Rises(old(meta.tablets), meta.tablets, plan.replacementId) && (r == Stepped || (r == Crashed && mortal))
      ensures r == Stepped ==> MetaOk(start, meta.tablets, plan, MergePhase.Published) && After(meta.tablets, plan)
    {
      r := Survive(mortal);
      if r == Stepped {
        CaughtUpPublishable(start, meta.tablets, plan);
        PublishReplacement();
        JustPublishedFits(start, meta.tablets, plan);
        LayoutSound(plan, start, mergeTs, old(Now()), Now());
        r := Survive(mortal);
      }
    }

    /** A pinned request protects its source exactly when no resume has come since publication. */
    method StepRemove() returns (r: StepResult)
      requires Valid() && phase == MergePhase.Published
      modifies meta, `phase
      ensures Justified(r)
      ensures Valid() && Rises(old(meta.tablets), meta.tablets, plan.replacementId)
      ensures phase == if r == Stepped then SourcesRetired else MergePhase.Published
      ensures r == SourceRetained <==> !resumed && pinned != (0, 0)
      ensures r == SourceRetained ==> meta.tablets == old(meta.tablets)
      ensures r == Stepped ==> plan.lower.tabletId !in meta.tablets && plan.upper.tabletId !in meta.tablets
    {
      r := RemoveSources();
      if r == Stepped {
        phase := SourcesRetired;
      }
      LayoutSound(plan, start, mergeTs, old(Now()), Now());
    }

    // ---------------------------------------------------------- whole runs

    /**
     * A new executor over the durable phase, without a guard. A process that died took its requests
     * with it; requests of a living one are where they were.
     */
    method Resume(alive: bool)
      requires Valid()
      modifies `retention, `pinned, `resumed
      ensures Valid() && retention == None && resumed && pinned == if alive then old(pinned) else (0, 0)
    {
      retention, resumed := None, true;
      if !alive {
        pinned := (0, 0);
      }
    }

    /** Resuming a published merge in the process whose requests are pinned: the sources go although the requests are still there. */
    method ResumeForgetsRequests() returns (r: StepResult)
      requires Valid() && phase == MergePhase.Published && pinned != (0, 0)
      modifies meta, `phase, `retention, `pinned, `resumed
      ensures Valid() && pinned == old(pinned) && r != SourceRetained
      ensures r == Stepped ==> plan.lower.tabletId !in meta.tablets && plan.upper.tabletId !in meta.tablets
    {
      Resume(true);
      r := StepRemove();
    }

    /**
     * Run the merge through any schedule of source writes, requests and crashes. Wherever it stops,
     * every key of the table has the one owner it is meant to have and generations have only risen.
     * Once caught up, the replacement holds exactly the rows last read if and only if no earlier
     * attempt left a stale one, and none has if no crash came between. The rows last read are rows
     * the sources had in this run, so with sources quiet since those reads the same condition decides
     * whether it holds their newest rows; quiet since the first read it does.
     */
    method RunWithCrashes(lives: nat) returns (r: StepResult)
      requires Valid()
      modifies this, meta
      ensures Justified(r)
      ensures Valid() && Rises(old(meta.tablets), meta.tablets, plan.replacementId)
      ensures Partitioned(start, plan.lower.tableId) ==> Partitioned(meta.tablets, plan.lower.tableId)
      ensures phase.Rank() >= old(phase).Rank() && Grew(old(lowerRows), lowerRows) && Grew(old(upperRows), upperRows)
      ensures IsCaughtUp() ==> Grew(attempts.lowerAtRead, lowerRows) && Grew(attempts.upperAtRead, upperRows)
      ensures IsCaughtUp() && !old(IsCaughtUp()) ==> Grew(old(lowerRows), attempts.lowerAtRead) && Grew(old(upperRows), attempts.upperAtRead)
      ensures IsCaughtUp() ==> CaughtUpMeans(plan, mergeTs, View(), attempts)
      ensures IsCaughtUp() && lives == 0 && old(phase).Rank() < ReplacementBuilt.Rank() ==>
        HoldsBoth(installed, attempts.LowerRead(), attempts.UpperRead())
      ensures IsCaughtUp() && !old(attempts.moved) && lowerRows == old(lowerRows) && upperRows == old(upperRows) ==> Complete(View())
      ensures r == Stepped ==> phase == SourcesRetired
      ensures r == Stepped ==> plan.lower.tabletId !in meta.tablets && plan.upper.tabletId !in meta.tablets
    {
      ghost var cut := lives > 0 || phase.Rank() >= ReplacementBuilt.Rank();
      r := RunPhases(lives, cut);
      RunConclusion(plan, start, mergeTs, old(Now()), Now());
    }

    ghost predicate IsCaughtUp()
      reads this
    {
      phase.HasCaughtUp()
    }

    /** Round after round until the merge is complete, refused, or out of lives; uncut, no catch-up is ever redone. */
    method RunPhases(lives: nat, ghost cut: bool) returns (r: StepResult)
      requires Valid() && (cut || (lives == 0 && phase.Rank() < ReplacementBuilt.Rank()))
      modifies this, meta
      ensures Justified(r)
      ensures Valid() && Continues(plan, old(Now()), Now())
      ensures !cut && IsCaughtUp() ==> attempts.carried == {}
      ensures r == Stepped ==> phase == SourcesRetired
    {
      r := Stepped;
      var left: nat := lives;
      LayoutContinues(plan, Now(), Now());
      while phase != SourcesRetired && r == Stepped
        invariant Valid() && Continues(plan, old(Now()), Now()) && Justified(r)
        invariant cut || (left == 0 && (r == Stepped ==> Unbroken(phase, attempts)) && (IsCaughtUp() ==> attempts.carried == {}))
        decreases r == Stepped, left, SourcesRetired.Rank() - phase.Rank()
      {
        ghost var mid := Now();
        NextRanks(phase);
        r, left := Round(left);
        ContinuesTrans(plan, old(Now()), mid, Now());
      }
    }

    /** The world moves, the executor takes a step, and if it stopped it is resumed while lives last. */
    method Round(lives: nat) returns (r: StepResult, left: nat)
      requires Valid() && phase != SourcesRetired
      modifies this, meta
      ensures Justified(r)
      ensures Valid() && Continues(plan, old(Now()), Now()) && left <= lives
      ensures r == Stepped ==> left < lives || phase == old(phase).Next()
      ensures r == Stepped && left == lives && Unbroken(old(phase), old(attempts)) ==> Unbroken(phase, attempts)
      ensures r != Stepped ==> phase == old(phase)
      ensures IsCaughtUp() && old(IsCaughtUp()) ==> attempts.carried == old(attempts.carried)
    {
      r := StepInWorld();
      r, left := Recover(r, lives);
    }

    method StepInWorld() returns (r: StepResult)
      requires Valid() && phase != SourcesRetired
      modifies this, meta
      ensures Justified(r)
      ensures Valid() && Continues(plan, old(Now()), Now())
      ensures phase == if r == Stepped then old(phase).Next() else old(phase)
      ensures r == Stepped && Unbroken(old(phase), old(attempts)) ==> Unbroken(phase, attempts)
    {
      WorldMoves();
      ghost var mid := Now();
      RowsContinue(plan, old(Now()), mid);
      r := Step();
      ContinuesTrans(plan, old(Now()), mid, Now());
    }

    /** A crash, or a merge parked for its requests, is followed by a resume while lives last. */
    method Recover(stopped: StepResult, lives: nat) returns (r: StepResult, left: nat)
      requires Valid()
      modifies `retention, `pinned, `resumed
      ensures Valid()
      ensures if (stopped == Crashed || stopped == SourceRetained) && lives > 0 then r == Stepped && left == lives - 1 && resumed
              else r == stopped && left == lives && pinned == old(pinned) && resumed == old(resumed)
    {
      r, left := stopped, lives;
      if (r == Crashed || r == SourceRetained) && left > 0 {
        var alive: bool := *;
        Resume(alive || r == SourceRetained);
        r, left := Stepped, left - 1;
      }
    }

    method WorldMoves()
      requires Valid()
      modifies `lowerRows, `upperRows, `attempts, `retention, `pinned
      ensures Valid() && Stirred(old(View()), old(attempts), View(), attempts) && attempts == old(attempts).(moved := attempts.moved)
    {
      WritesBetweenPhases();
      RequestsMove();
    }
  }
}
