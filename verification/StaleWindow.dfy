/**
 * Why a snapshot must not be older than the certification window: for every window, a run with a
 * snapshot one commit older that no serial order explains.
 */
module StaleWindow {
  import opened Common
  import opened DistSsi
  import opened SsiSerial

  /** Location 0 is the one fought over; the others are there to be written. */
  function Loc(i: nat): Location { (i, []) }

  const X: Location := Loc(0)

  function Updater(): Program {
    (seen: seq<Option<Value>>) =>
      if |seen| == 0 then ReadOp(X) else if |seen| == 1 then WriteOp(X, Some("1")) else Finish
  }

  function Writer(l: Location): Program {
    (seen: seq<Option<Value>>) => if |seen| == 0 then WriteOp(l, Some("2")) else Finish
  }

  // --------------------------------------------------------------- the run

  function OneWriter(t: TransactionId, l: Location): seq<Event> {
    [Begin(t, Writer(l)), Operate(t), Commit(t)]
  }

  lemma RunWriter(s: System, t: TransactionId, l: Location)
    ensures Run(s, OneWriter(t, l)) == AfterCommit(AfterOperate(AfterBegin(s, t, Writer(l)), t), t)
  {
    assert OneWriter(t, l)[1..] == [Operate(t), Commit(t)];
    RunTwo(AfterBegin(s, t, Writer(l)), Operate(t), Commit(t));
  }

  lemma RunTwo(s: System, e1: Event, e2: Event)
    ensures Run(s, [e1, e2]) == Next(Next(s, e1), e2)
  {
    var mid := Next(s, e1);
    assert [e1, e2][1..] == [e2] && [e2][1..] == [];
    assert Run(mid, [e2]) == Run(Next(mid, e2), []);
  }

  lemma {:induction false} RunSplits(s: System, e1: seq<Event>, e2: seq<Event>)
    ensures Run(s, e1 + e2) == Run(Run(s, e1), e2)
    decreases |e1|
  {
    if e1 == [] {
      assert e1 + e2 == e2;
    } else {
      assert (e1 + e2)[1..] == e1[1..] + e2;
      RunSplits(Next(s, e1[0]), e1[1..], e2);
    }
  }

  /** The updater reads X, a writer of X commits, and then `k` writers of other locations do. */
  function Overtaking(k: nat): seq<Event> {
    if k == 0 then [Begin(0, Updater()), Operate(0)] + OneWriter(1, X)
    else Overtaking(k - 1) + OneWriter(k + 1, Loc(k))
  }

  /** The updater writes and commits once as many others have committed as the window remembers. */
  function StaleRun(window: nat): seq<Event> {
    Overtaking(window) + [Operate(0), Commit(0)]
  }

  function WriterEntry(t: TransactionId, l: Location, snapshot: nat): Entry {
    Entry(t, Writer(l), snapshot, 1, Local([None], map[l := Some("2")], {}))
  }

  ghost function WriterDone(s: System, t: TransactionId, l: Location): System
    requires |s.history| == |s.log| + 1
  {
    System(
      s.cert.(committed := Tail(s.cert.committed + [(t, NO_ACCESS.Write(l.0, l.1))], s.cert.window)),
      s.history + [s.history[|s.log|] + map[l := Some("2")]], s.log + [WriterEntry(t, l, |s.log|)], s.active)
  }

  lemma WriterWrites(s: System, t: TransactionId, l: Location)
    requires |s.history| == |s.log| + 1 && t !in s.active && t !in s.cert.inflight
    ensures AfterOperate(AfterBegin(s, t, Writer(l)), t) ==
      s.(cert := s.cert.(inflight := s.cert.inflight[t := NO_ACCESS.Write(l.0, l.1)]),
         active := s.active[t := Active(Writer(l), |s.log|, 1, Local([None], map[l := Some("2")], {}))])
  {
    var s1 := AfterBegin(s, t, Writer(l));
    var s2 := AfterOperate(s1, t);
    var a := Active(Writer(l), |s.log|, 1, Local([None], map[l := Some("2")], {}));
    assert Writer(l)([]) == WriteOp(l, Some("2"));
    assert s2.active[t] == a;
    assert s2.active == s.active[t := a];
    assert s2.cert.inflight == s.cert.inflight[t := NO_ACCESS.Write(l.0, l.1)];
  }

  lemma WriterPasses(l: Location, committed: seq<(TransactionId, DistAccessSet)>)
    requires forall i :: 0 <= i < |committed| ==> l !in committed[i].1.Writes()
    ensures !ConflictsWithWindow(NO_ACCESS.Write(l.0, l.1), committed)
  {
    var mine := NO_ACCESS.Write(l.0, l.1);
    assert mine.Reads() == {} && mine.Writes() == {l};
    forall i | 0 <= i < |committed| ensures !Conflicts(mine, committed[i].1) {
      assert l !in committed[i].1.Writes();
    }
  }

  /** A writer of `l` begins, writes and commits while no writer of `l` is in the window. */
  lemma WriterCommits(s: System, t: TransactionId, l: Location)
    requires |s.history| == |s.log| + 1 && t !in s.active && t !in s.cert.inflight
    requires forall i :: 0 <= i < |s.cert.committed| ==> l !in s.cert.committed[i].1.Writes()
    ensures AfterCommit(AfterOperate(AfterBegin(s, t, Writer(l)), t), t) == WriterDone(s, t, l)
  {
    var mine := NO_ACCESS.Write(l.0, l.1);
    var a := Active(Writer(l), |s.log|, 1, Local([None], map[l := Some("2")], {}));
    WriterWrites(s, t, l);
    WriterPasses(l, s.cert.committed);
    assert s.cert.inflight[t := mine] - {t} == s.cert.inflight;
    assert s.active[t := a] - {t} == s.active;
  }

  ghost function EmptySystem(window: nat): System {
    System(Certifier(map[], [], window), [map[]], [], map[])
  }

  // ------------------------------------------------------------- its states

  function Access(i: nat): DistAccessSet { NO_ACCESS.Write(Loc(i).0, Loc(i).1) }

  lemma AccessWrites(i: nat)
    ensures Access(i).Reads() == {} && Access(i).Writes() == {Loc(i)}
  {
  }

  /** What the window would hold if it forgot nothing. */
  function Committers(k: nat): seq<(TransactionId, DistAccessSet)> {
    seq(k + 1, i requires 0 <= i <= k => (i + 1, Access(i)))
  }

  /** The window forgets from the front: the writer of X first, once it is full. */
  lemma KeptMiss(window: nat, k: nat, m: nat)
    requires m > k || (m == 0 && window <= k)
    ensures
      var kept := Tail(Committers(k), window);
      forall i :: 0 <= i < |kept| ==> Loc(m) !in kept[i].1.Writes()
  {
    var kept := Tail(Committers(k), window);
    forall i | 0 <= i < |kept| ensures Loc(m) !in kept[i].1.Writes() {
      var n := k + 1 - |kept| + i;
      assert kept[i] == Committers(k)[n] == (n + 1, Access(n));
      AccessWrites(n);
    }
  }

  ghost predicate OneWroteX(log: seq<Entry>, k: nat) {
    && |log| == k + 1 && log[0].final.buffer == map[X := Some("2")]
    && forall i :: 1 <= i <= k ==> X !in log[i].final.buffer
  }

  lemma StillOneWroteX(log: seq<Entry>, k: nat, e: Entry)
    requires OneWroteX(log, k) && X !in e.final.buffer
    ensures OneWroteX(log + [e], k + 1)
  {
  }

  /** The updater is where it stopped; the others have committed, and the window kept what it could. */
  ghost predicate OvertakenBy(s: System, window: nat, k: nat) {
    && s.active == map[0 := Active(Updater(), 0, 1, Local([None], map[], {X}))]
    && s.cert == Certifier(map[0 := NO_ACCESS.Read(X.0, X.1)], Tail(Committers(k), window), window)
    && OneWroteX(s.log, k) && |s.history| == k + 2 && s.history[0] == map[]
  }

  /** The updater has read X from the empty database. */
  ghost predicate HalfWay(s: System, window: nat) {
    s == System(
           Certifier(map[0 := NO_ACCESS.Read(X.0, X.1)], [], window), [map[]], [],
           map[0 := Active(Updater(), 0, 1, Local([None], map[], {X}))])
  }

  lemma ReadsFirst(window: nat)
    ensures HalfWay(Run(EmptySystem(window), [Begin(0, Updater()), Operate(0)]), window)
  {
    RunTwo(EmptySystem(window), Begin(0, Updater()), Operate(0));
    var s := AfterBegin(EmptySystem(window), 0, Updater());
    assert s.active[0] == Active(Updater(), 0, 0, START);
    assert Updater()(START.observed) == ReadOp(X);
    assert Operated(Updater(), map[], START) == Local([None], map[], {X});
    assert s.cert.Inflight(0) == NO_ACCESS;
  }

  lemma FirstOvertakes(s: System, window: nat)
    requires HalfWay(s, window)
    ensures OvertakenBy(Run(s, OneWriter(1, X)), window, 0)
  {
    RunWriter(s, 1, X);
    WriterCommits(s, 1, X);
    assert [] + [(1, Access(0))] == Committers(0);
  }

  lemma NextCommits(s: System, window: nat, k: nat)
    requires OvertakenBy(s, window, k)
    ensures Run(s, OneWriter(k + 2, Loc(k + 1))) == WriterDone(s, k + 2, Loc(k + 1))
  {
    KeptMiss(window, k, k + 1);
    RunWriter(s, k + 2, Loc(k + 1));
    WriterCommits(s, k + 2, Loc(k + 1));
  }

  lemma NextOvertakes(s: System, window: nat, k: nat)
    requires OvertakenBy(s, window, k)
    ensures OvertakenBy(WriterDone(s, k + 2, Loc(k + 1)), window, k + 1)
  {
    assert Committers(k + 1) == Committers(k) + [(k + 2, Access(k + 1))];
    TailOfTail(Committers(k), (k + 2, Access(k + 1)), window);
    StillOneWroteX(s.log, k, WriterEntry(k + 2, Loc(k + 1), k + 1));
  }

  lemma OneMoreOvertakes(start: System, events: seq<Event>, window: nat, k: nat)
    requires OvertakenBy(Run(start, events), window, k)
    ensures OvertakenBy(Run(start, events + OneWriter(k + 2, Loc(k + 1))), window, k + 1)
  {
    RunSplits(start, events, OneWriter(k + 2, Loc(k + 1)));
    NextCommits(Run(start, events), window, k);
    NextOvertakes(Run(start, events), window, k);
  }

  lemma WriterOvertakes(window: nat)
    ensures OvertakenBy(Run(EmptySystem(window), [Begin(0, Updater()), Operate(0)] + OneWriter(1, X)), window, 0)
  {
    var events := [Begin(0, Updater()), Operate(0)];
    RunSplits(EmptySystem(window), events, OneWriter(1, X));
    ReadsFirst(window);
    FirstOvertakes(Run(EmptySystem(window), events), window);
  }

  lemma {:induction false} Overtaken(window: nat, k: nat)
    ensures OvertakenBy(Run(EmptySystem(window), Overtaking(k)), window, k)
  {
    if k == 0 {
      WriterOvertakes(window);
    } else {
      Overtaken(window, k - 1);
      OneMoreOvertakes(EmptySystem(window), Overtaking(k - 1), window, k - 1);
    }
  }

  const UPDATE := Entry(0, Updater(), 0, 2, Local([None, None], map[X := Some("1")], {X}))

  /** All committed; the updater overwrote X without having seen the other writer. */
  ghost predicate LostUpdate(end: System, window: nat) {
    && |end.log| == window + 2 && OneWroteX(end.log[..window + 1], window) && end.log[window + 1] == UPDATE
    && |end.history| == window + 3 && Lookup(end.history[window + 2], X) == Some("1")
  }

  lemma UpdaterAccess()
    ensures NO_ACCESS.Read(X.0, X.1).Write(X.0, X.1).Reads() == {X}
    ensures NO_ACCESS.Read(X.0, X.1).Write(X.0, X.1).Writes() == {X}
  {
  }

  lemma UpdaterOperates(s: System)
    requires s.active == map[0 := Active(Updater(), 0, 1, Local([None], map[], {X}))] && s.history != [] && s.history[0] == map[]
    requires s.cert.inflight == map[0 := NO_ACCESS.Read(X.0, X.1)]
    ensures
      var t := AfterOperate(s, 0);
      && t == s.(cert := t.cert, active := t.active) && t.cert == s.cert.(inflight := t.cert.inflight)
      && t.active == map[0 := Active(Updater(), 0, 2, Local([None, None], map[X := Some("1")], {X}))]
      && t.cert.inflight == map[0 := NO_ACCESS.Read(X.0, X.1).Write(X.0, X.1)]
  {
    var t := AfterOperate(s, 0);
    assert Updater()([None]) == WriteOp(X, Some("1"));
    assert t.active[0] == Active(Updater(), 0, 2, Local([None, None], map[X := Some("1")], {X}));
    assert t.active.Keys == {0} && t.cert.inflight.Keys == {0};
    assert t.cert.inflight[0] == NO_ACCESS.Read(X.0, X.1).Write(X.0, X.1);
  }

  /** Nothing in the window wrote X any more, so the updater passes. */
  lemma UpdaterPasses(s: System, window: nat)
    requires s.cert == Certifier(map[0 := NO_ACCESS.Read(X.0, X.1).Write(X.0, X.1)], Tail(Committers(window), window), window)
    requires s.active == map[0 := Active(Updater(), 0, 2, UPDATE.final)] && s.history != []
    ensures AfterCommit(s, 0).log == s.log + [UPDATE]
    ensures AfterCommit(s, 0).history == s.history + [s.history[|s.history| - 1] + UPDATE.final.buffer]
  {
    UpdaterAccess();
    KeptMiss(window, window, 0);
    var mine := NO_ACCESS.Read(X.0, X.1).Write(X.0, X.1);
    forall i | 0 <= i < |s.cert.committed| ensures !Conflicts(mine, s.cert.committed[i].1) {
      assert X !in s.cert.committed[i].1.Writes();
    }
    assert !ConflictsWithWindow(mine, s.cert.committed);
  }

  lemma UpdaterCommits(s: System, window: nat)
    requires OvertakenBy(s, window, window)
    ensures LostUpdate(Run(s, [Operate(0), Commit(0)]), window)
  {
    RunTwo(s, Operate(0), Commit(0));
    UpdaterOperates(s);
    UpdaterPasses(AfterOperate(s, 0), window);
    assert (s.log + [UPDATE])[..window + 1] == s.log;
  }

  // ------------------------------------------------------ no order explains

  /** Once some entry has written X, X holds a value that some entry wrote. */
  lemma {:induction false} WrittenSince(order: seq<Entry>, db: Db, j: nat, values: set<Option<Value>>)
    requires Faithful(order, db) && j < |order| && X in order[j].final.buffer
    requires forall m :: j <= m < |order| && X in order[m].final.buffer ==> order[m].final.buffer[X] in values
    ensures Lookup(SerialReplay(order, db), X) in values
  {
    var last := order[|order| - 1];
    if X !in last.final.buffer {
      WrittenSince(order[..|order| - 1], db, j, values);
    }
  }

  /** In a faithful order the updater, which saw no X, does not follow an entry that wrote X. */
  lemma {:induction false} UpdaterComesFirst(order: seq<Entry>, db: Db, i: nat, j: nat)
    requires Faithful(order, db) && j < |order| && i < |order| && X in order[j].final.buffer
    requires forall m :: 0 <= m < |order| && X in order[m].final.buffer ==> order[m].final.buffer[X] != None
    requires order[i].program == Updater() && order[i].steps == 2 && order[i].final.observed == [None, None]
    ensures i <= j
  {
    if j < i {
      var before := order[..|order| - 1];
      if i < |order| - 1 {
        UpdaterComesFirst(before, db, i, j);
      } else {
        WrittenSince(before, db, j, set m | 0 <= m < |before| && X in before[m].final.buffer :: before[m].final.buffer[X]);
        UpdaterSees(SerialReplay(before, db));
      }
    }
  }

  lemma UpdaterSees(db: Db)
    ensures RunAlone(Updater(), db, 2).observed == [Lookup(db, X), None]
  {
    assert RunAlone(Updater(), db, 1) == Operated(Updater(), db, START);
    assert RunAlone(Updater(), db, 1) == Local([Lookup(db, X)], map[], {X});
    assert RunAlone(Updater(), db, 2) == Operated(Updater(), db, RunAlone(Updater(), db, 1));
  }

  /** The updater must come before the writer of X, which it did not see, and cannot: its value stayed. */
  lemma NoOrderExplains(order: seq<Entry>, db: Db, final: Db, update: Entry, write: Entry)
    requires update in order && write in order && Lookup(final, X) == Some("1")
    requires update.program == Updater() && update.steps == 2 && update.final.observed == [None, None]
    requires forall e :: e in order && X in e.final.buffer ==> e == update || e == write
    requires X in update.final.buffer && update.final.buffer[X] == Some("1")
    requires X in write.final.buffer && write.final.buffer[X] == Some("2")
    ensures !Explains(order, db, final)
  {
    if Explains(order, db, final) {
      var j :| 0 <= j < |order| && order[j] == write;
      forall i | j < i < |order| ensures order[i] != update {
        if order[i] == update {
          UpdaterComesFirst(order, db, i, j);
        }
      }
      WrittenSince(order, db, j, {Some("2")});
    }
  }

  lemma LostUpdateUnexplained(end: System, window: nat, order: seq<Entry>)
    requires LostUpdate(end, window) && multiset(order) == multiset(end.log)
    ensures !Explains(order, map[], end.history[window + 2])
  {
    assert UPDATE in multiset(order) && end.log[0] in multiset(order);
    forall e | e in order && X in e.final.buffer ensures e == UPDATE || e == end.log[0] {
      assert e in multiset(order);
      var i :| 0 <= i < |end.log| && end.log[i] == e;
      assert i <= window ==> e == end.log[..window + 1][i];
    }
    NoOrderExplains(order, map[], end.history[window + 2], UPDATE, end.log[0]);
  }

  /**
   * For every window: the updater's snapshot is one commit older than the window reaches, the writer
   * of X it missed has just been forgotten, and it is certified and overwrites X unseen. No order of
   * the transactions explains what they saw and left.
   */
  lemma StaleSnapshotLosesUpdate(window: nat)
    ensures
      var end := Run(EmptySystem(window), StaleRun(window));
      && |end.log| == window + 2 && |end.history| == window + 3
      && FreshSnapshots(end.log, window + 1) && !FreshSnapshots(end.log, window)
      && forall order :: multiset(order) == multiset(end.log) ==> !Explains(order, map[], end.history[|end.log|])
  {
    Overtaken(window, window);
    RunSplits(EmptySystem(window), Overtaking(window), [Operate(0), Commit(0)]);
    UpdaterCommits(Run(EmptySystem(window), Overtaking(window)), window);
    var end := Run(EmptySystem(window), StaleRun(window));
    assert (window + 1) - end.log[window + 1].snapshot > window;
    forall order | multiset(order) == multiset(end.log) ensures !Explains(order, map[], end.history[|end.log|]) {
      LostUpdateUnexplained(end, window, order);
    }
  }
}
