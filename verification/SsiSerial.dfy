/** Serial equivalence of certified histories.

Transactions are arbitrary deterministic programs: the next operation is a function of what the
transaction has observed so far. Each one runs against a snapshot, buffers its writes, reports
every access to the certifier, and installs its buffer only after certification. The main theorem
says that re-running the certified programs one after the other, each alone on the state left by
its predecessors, makes every one of them observe and write exactly what it did concurrently. */
module SsiSerial {
  import opened Common
  import opened DistSsi

  type Value(==, !new) = string

  /** Location contents; a location never written reads as None, a delete writes None. */
  type Db = map<Location, Option<Value>>

  function Lookup(db: Db, l: Location): Option<Value> {
    if l in db then db[l] else None
  }

  datatype Op = ReadOp(loc: Location) | WriteOp(loc: Location, value: Option<Value>) | Finish

  type Program = seq<Option<Value>> -> Op

  /** What one transaction has done: results seen, buffered writes, locations read. */
  datatype Local = Local(observed: seq<Option<Value>>, buffer: Db, read: set<Location>)

  const START := Local([], map[], {})

  /** One operation of program `p` against snapshot `db` (own writes are read back). */
  function Operated(p: Program, db: Db, l: Local): Local {
    match p(l.observed)
    case ReadOp(loc) =>
      var seen := if loc in l.buffer then l.buffer[loc] else Lookup(db, loc);
      Local(l.observed + [seen], l.buffer, l.read + {loc})
    case WriteOp(loc, value) => Local(l.observed + [None], l.buffer[loc := value], l.read)
    case Finish => l
  }

  /** A transaction reads what it wrote last, and otherwise what its snapshot holds; its writes stay its own until it commits. */
  lemma ReadsOwnWrites(p: Program, db: Db, l: Local, loc: Location, value: Option<Value>)
    ensures p(l.observed) == WriteOp(loc, value) ==>
      var l' := Operated(p, db, l);
      && Lookup(l'.buffer, loc) == value && (forall o :: o != loc ==> (o in l'.buffer <==> o in l.buffer) && Lookup(l'.buffer, o) == Lookup(l.buffer, o))
      && (p(l'.observed) == ReadOp(loc) ==> Operated(p, db, l').observed == l'.observed + [value])
    ensures p(l.observed) == ReadOp(loc) && loc !in l.buffer ==>
      Operated(p, db, l).observed == l.observed + [Lookup(db, loc)] && Operated(p, db, l).buffer == l.buffer
  {
  }

  /** The first `n` operations of `p` run alone on `db`. */
  function RunAlone(p: Program, db: Db, n: nat): Local {
    if n == 0 then START else Operated(p, db, RunAlone(p, db, n - 1))
  }

  datatype Active = Active(program: Program, snapshot: nat, steps: nat, local: Local)

  datatype Entry = Entry(txn: TransactionId, program: Program, snapshot: nat, steps: nat, final: Local)

  /** `history[i]` is the database after `i` commits; `log[i]` is the transaction that made commit `i`. */
  datatype System = System(
    cert: Certifier,
    history: seq<Db>,
    log: seq<Entry>,
    active: map<TransactionId, Active>)

  datatype Event =
    | Begin(txn: TransactionId, program: Program)
    | Operate(txn: TransactionId)
    | Prepare(txn: TransactionId, access: DistAccessSet)
    | Commit(txn: TransactionId)
    | Abort(txn: TransactionId)

  ghost predicate Init(s: System, window: nat, db: Db) {
    s == System(Certifier(map[], [], window), [db], [], map[])
  }

  /** The access set a coordinator may hand over at prepare time: exactly what was done. */
  ghost predicate Describes(access: DistAccessSet, l: Local) {
    access.Reads() == l.read && access.Writes() == l.buffer.Keys
  }

  ghost function AfterBegin(s: System, t: TransactionId, p: Program): System {
    if t in s.active then s else s.(active := s.active[t := Active(p, |s.log|, 0, START)])
  }

  /** The certifier after `t` performs the operation `op`. */
  ghost function Told(c: Certifier, t: TransactionId, op: Op): Certifier {
    match op
    case ReadOp(loc) => ObservedRead(c, t, loc)
    case WriteOp(loc, _) => ObservedWrite(c, t, loc)
    case Finish => c
  }

  ghost function AfterOperate(s: System, t: TransactionId): System {
    if t !in s.active || s.active[t].snapshot >= |s.history| then s else
    var a := s.active[t];
    var l := Operated(a.program, s.history[a.snapshot], a.local);
    s.(cert := Told(s.cert, t, a.program(a.local.observed)),
       active := s.active[t := a.(local := l, steps := a.steps + 1)])
  }

  ghost function AfterPrepare(s: System, t: TransactionId, access: DistAccessSet): System {
    if t !in s.active || !Describes(access, s.active[t].local) then s else
    s.(cert := s.cert.(inflight := s.cert.inflight[t := access]))
  }

  ghost function AfterCommit(s: System, t: TransactionId): System {
    if t !in s.active || s.history == [] || !s.active[t].program(s.active[t].local.observed).Finish? then s else
    var (cert, outcome) := Certified(s.cert, t);
    var a := s.active[t];
    var closed := s.(cert := cert, active := s.active - {t});
    if outcome == SerializationFailure || t !in s.cert.inflight then closed else
    closed.(
      history := s.history + [s.history[|s.history| - 1] + a.local.buffer],
      log := s.log + [Entry(t, a.program, a.snapshot, a.steps, a.local)])
  }

  ghost function AfterAbort(s: System, t: TransactionId): System {
    s.(cert := s.cert.(inflight := s.cert.inflight - {t}), active := s.active - {t})
  }

  ghost function Next(s: System, e: Event): System {
    match e
    case Begin(t, p) => AfterBegin(s, t, p)
    case Operate(t) => AfterOperate(s, t)
    case Prepare(t, access) => AfterPrepare(s, t, access)
    case Commit(t) => AfterCommit(s, t)
    case Abort(t) => AfterAbort(s, t)
  }

  ghost function Run(s: System, events: seq<Event>): System
    decreases |events|
  {
    if events == [] then s else Run(Next(s, events[0]), events[1..])
  }

  // ---------------------------------------------------------------- invariant

  /** The chain of database states is the log's buffers laid one over the other. */
  ghost predicate HistoryChain(history: seq<Db>, log: seq<Entry>) {
    && |history| == |log| + 1
    && forall i :: 0 <= i < |log| ==> history[i + 1] == history[i] + log[i].final.buffer
  }

  ghost predicate EntryRan(history: seq<Db>, e: Entry) {
    && e.snapshot < |history|
    && e.final == RunAlone(e.program, history[e.snapshot], e.steps)
    && e.program(e.final.observed).Finish?
  }

  ghost predicate LogRan(history: seq<Db>, log: seq<Entry>) {
    forall i :: 0 <= i < |log| ==> log[i].snapshot <= i && EntryRan(history, log[i])
  }

  ghost predicate ActiveRan(history: seq<Db>, active: map<TransactionId, Active>) {
    forall t :: t in active ==>
      && active[t].snapshot < |history|
      && active[t].local == RunAlone(active[t].program, history[active[t].snapshot], active[t].steps)
  }

  /** In-flight access sets say exactly what their transactions did; no set means nothing was done. */
  ghost predicate Observed(inflight: map<TransactionId, DistAccessSet>, active: map<TransactionId, Active>) {
    && inflight.Keys <= active.Keys
    && (forall t :: t in inflight ==> Describes(inflight[t], active[t].local))
    && (forall t :: t in active && t !in inflight ==> Describes(NO_ACCESS, active[t].local))
  }

  /** The certifier's window is the tail of the log. */
  ghost predicate WindowIsTail(committed: seq<(TransactionId, DistAccessSet)>, window: nat, log: seq<Entry>) {
    && |committed| == (if |log| <= window then |log| else window)
    && forall i :: 0 <= i < |committed| ==> Describes(committed[i].1, log[|log| - |committed| + i].final)
  }

  /** Commits at most `window` apart: the earlier writer missed all the later one read or wrote. */
  ghost predicate Separated(log: seq<Entry>, window: nat) {
    forall i, j :: 0 <= j < i < |log| && i - j <= window ==> MissedBy(log[j], log[i])
  }

  ghost predicate MissedBy(earlier: Entry, later: Entry) {
    earlier.final.buffer.Keys !! later.final.read + later.final.buffer.Keys
  }

  ghost predicate Inv(s: System) {
    && HistoryChain(s.history, s.log)
    && LogRan(s.history, s.log)
    && ActiveRan(s.history, s.active)
    && Observed(s.cert.inflight, s.active)
    && WindowIsTail(s.cert.committed, s.cert.window, s.log)
    && Separated(s.log, s.cert.window)
  }

  /** The certifier is told about each operation as it happens. */
  lemma OperationObserved(c: Certifier, t: TransactionId, p: Program, db: Db, l: Local)
    requires Describes(c.Inflight(t), l)
    ensures Describes(Told(c, t, p(l.observed)).Inflight(t), Operated(p, db, l))
  {
  }

  /** Changing what one transaction did, together with what the certifier knows of it. */
  lemma ObservedWith(c: Certifier, c': Certifier, active: map<TransactionId, Active>, t: TransactionId, a: Active)
    requires Observed(c.inflight, active) && Describes(c'.Inflight(t), a.local)
    requires c'.inflight - {t} == c.inflight - {t}
    ensures Observed(c'.inflight, active[t := a])
  {
    forall u | u in c'.inflight ensures u in active[t := a] && Describes(c'.inflight[u], active[t := a][u].local) {
      if u != t {
        assert u in c'.inflight - {t};
      }
    }
    forall u | u in active && u !in c'.inflight ensures Describes(NO_ACCESS, active[t := a][u].local) {
      if u != t {
        assert u !in c.inflight - {t};
      }
    }
  }

  lemma ObservedWithout(inflight: map<TransactionId, DistAccessSet>, active: map<TransactionId, Active>, t: TransactionId)
    requires Observed(inflight, active)
    ensures Observed(inflight - {t}, active - {t})
  {
  }

  lemma ToldAboutOne(c: Certifier, t: TransactionId, op: Op)
    ensures Told(c, t, op) == c.(inflight := Told(c, t, op).inflight) && Told(c, t, op).inflight - {t} == c.inflight - {t}
  {
  }

  /** One operation: what the certifier knows and what the transaction did move together. */
  lemma OperationTold(c: Certifier, history: seq<Db>, active: map<TransactionId, Active>, t: TransactionId, a': Active)
    requires ActiveRan(history, active) && Observed(c.inflight, active) && t in active
    requires a' == active[t].(local := Operated(active[t].program, history[active[t].snapshot], active[t].local), steps := active[t].steps + 1)
    ensures Observed(Told(c, t, active[t].program(active[t].local.observed)).inflight, active[t := a'])
    ensures ActiveRan(history, active[t := a'])
  {
    var a := active[t];
    var op := a.program(a.local.observed);
    assert Describes(c.Inflight(t), a.local);
    OperationObserved(c, t, a.program, history[a.snapshot], a.local);
    ToldAboutOne(c, t, op);
    ObservedWith(c, Told(c, t, op), active, t, a');
    OneRan(history, active, t, a');
  }

  lemma OperateIs(s: System, t: TransactionId, a': Active)
    requires t in s.active && s.active[t].snapshot < |s.history|
    requires a' == s.active[t].(local := Operated(s.active[t].program, s.history[s.active[t].snapshot], s.active[t].local), steps := s.active[t].steps + 1)
    ensures AfterOperate(s, t) == s.(cert := Told(s.cert, t, s.active[t].program(s.active[t].local.observed)), active := s.active[t := a'])
  {
  }

  lemma InvWith(s: System, c: Certifier, active: map<TransactionId, Active>)
    requires Inv(s) && c.committed == s.cert.committed && c.window == s.cert.window
    requires Observed(c.inflight, active) && ActiveRan(s.history, active)
    ensures Inv(s.(cert := c, active := active))
  {
  }

  lemma OperateKeeps(s: System, t: TransactionId)
    requires Inv(s)
    ensures Inv(AfterOperate(s, t))
  {
    if t in s.active {
      var a := s.active[t];
      var a' := a.(local := Operated(a.program, s.history[a.snapshot], a.local), steps := a.steps + 1);
      var c := Told(s.cert, t, a.program(a.local.observed));
      OperateIs(s, t, a');
      OperationTold(s.cert, s.history, s.active, t, a');
      ToldAboutOne(s.cert, t, a.program(a.local.observed));
      InvWith(s, c, s.active[t := a']);
    }
  }

  lemma OneRan(history: seq<Db>, active: map<TransactionId, Active>, t: TransactionId, a: Active)
    requires ActiveRan(history, active)
    requires a.snapshot < |history| && a.local == RunAlone(a.program, history[a.snapshot], a.steps)
    ensures ActiveRan(history, active[t := a])
  {
  }

  /** The window after a successful certification is the tail of the longer log. */
  lemma WindowGrows(committed: seq<(TransactionId, DistAccessSet)>, window: nat, log: seq<Entry>, t: TransactionId, mine: DistAccessSet, e: Entry)
    requires WindowIsTail(committed, window, log) && Describes(mine, e.final)
    ensures WindowIsTail(Tail(committed + [(t, mine)], window), window, log + [e])
  {
    var longer := committed + [(t, mine)];
    var kept := Tail(longer, window);
    forall i | 0 <= i < |kept| ensures Describes(kept[i].1, (log + [e])[|log| + 1 - |kept| + i].final) {
      var n := |longer| - |kept| + i;
      assert kept[i] == longer[n];
      if n < |committed| {
        assert Describes(committed[n].1, log[|log| - |committed| + n].final);
      }
    }
  }

  /** A transaction certified against the tail of the log is separated from that tail. */
  lemma SeparationGrows(committed: seq<(TransactionId, DistAccessSet)>, window: nat, log: seq<Entry>, mine: DistAccessSet, e: Entry)
    requires WindowIsTail(committed, window, log) && Describes(mine, e.final) && Separated(log, window)
    requires !ConflictsWithWindow(mine, committed)
    ensures Separated(log + [e], window)
  {
    forall j | 0 <= j < |log| && |log| - j <= window ensures MissedBy(log[j], e) {
      var i := j - (|log| - |committed|);
      assert Describes(committed[i].1, log[j].final);
      assert !Conflicts(mine, committed[i].1);
    }
    var longer := log + [e];
    forall i, j | 0 <= j < i < |longer| && i - j <= window ensures MissedBy(longer[j], longer[i]) {
      assert i < |log| ==> MissedBy(log[j], log[i]);
    }
  }

  lemma HistoryGrows(history: seq<Db>, log: seq<Entry>, active: map<TransactionId, Active>, db: Db, e: Entry)
    requires HistoryChain(history, log) && LogRan(history, log) && ActiveRan(history, active)
    requires EntryRan(history, e) && db == history[|log|] + e.final.buffer
    ensures HistoryChain(history + [db], log + [e]) && LogRan(history + [db], log + [e]) && ActiveRan(history + [db], active)
  {
  }

  lemma CertifiedCommitKeeps(s: System, t: TransactionId)
    requires Inv(s) && t in s.active && t in s.cert.inflight
    requires s.active[t].program(s.active[t].local.observed).Finish?
    requires Certified(s.cert, t).1 == Ok
    ensures Inv(AfterCommit(s, t))
  {
    var a, mine := s.active[t], s.cert.inflight[t];
    var e := Entry(t, a.program, a.snapshot, a.steps, a.local);
    var db := s.history[|s.log|] + a.local.buffer;
    HistoryGrows(s.history, s.log, s.active, db, e);
    WindowGrows(s.cert.committed, s.cert.window, s.log, t, mine, e);
    SeparationGrows(s.cert.committed, s.cert.window, s.log, mine, e);
    ObservedWithout(s.cert.inflight, s.active, t);
  }

  /** A transaction leaves without committing: aborted, refused, or with nothing to certify. */
  lemma LeaveKeeps(s: System, t: TransactionId)
    requires Inv(s)
    ensures Inv(AfterAbort(s, t))
  {
  }

  lemma UncertifiedCommit(s: System, t: TransactionId)
    requires t in s.active && s.history != [] && s.active[t].program(s.active[t].local.observed).Finish?
    requires t !in s.cert.inflight || Certified(s.cert, t).1 == SerializationFailure
    ensures AfterCommit(s, t) == AfterAbort(s, t)
  {
  }

  lemma CommitKeeps(s: System, t: TransactionId)
    requires Inv(s)
    ensures Inv(AfterCommit(s, t))
  {
    if t in s.active && s.active[t].program(s.active[t].local.observed).Finish? {
      if t in s.cert.inflight && Certified(s.cert, t).1 == Ok {
        CertifiedCommitKeeps(s, t);
      } else {
        LeaveKeeps(s, t);
        UncertifiedCommit(s, t);
      }
    }
  }

  lemma BeginKeeps(s: System, t: TransactionId, p: Program)
    requires Inv(s)
    ensures Inv(AfterBegin(s, t, p))
  {
    if t !in s.active {
      var a := Active(p, |s.log|, 0, START);
      assert Describes(NO_ACCESS, START);
      ObservedWith(s.cert, s.cert, s.active, t, a);
      OneRan(s.history, s.active, t, a);
    }
  }

  lemma PrepareKeeps(s: System, t: TransactionId, access: DistAccessSet)
    requires Inv(s)
    ensures Inv(AfterPrepare(s, t, access))
  {
  }

  lemma NextKeeps(s: System, e: Event)
    requires Inv(s)
    ensures Inv(Next(s, e))
  {
    match e
    case Begin(t, p) => BeginKeeps(s, t, p);
    case Operate(t) => OperateKeeps(s, t);
    case Prepare(t, access) => PrepareKeeps(s, t, access);
    case Commit(t) => CommitKeeps(s, t);
    case Abort(t) => LeaveKeeps(s, t);
  }

  lemma NextFixes(s: System, e: Event)
    requires s.history != []
    ensures Next(s, e).history != [] && Next(s, e).history[0] == s.history[0]
    ensures Next(s, e).cert.window == s.cert.window
  {
  }

  lemma {:induction false} RunKeeps(s: System, events: seq<Event>)
    requires Inv(s)
    ensures Inv(Run(s, events))
    ensures Run(s, events).cert.window == s.cert.window
    ensures Run(s, events).history[0] == s.history[0]
    decreases |events|
  {
    if events != [] {
      NextKeeps(s, events[0]);
      NextFixes(s, events[0]);
      RunKeeps(Next(s, events[0]), events[1..]);
    }
  }

  /** Certification window invariant, over every run from an empty certifier. */
  lemma WindowInvariant(s: System, window: nat, db: Db, events: seq<Event>)
    requires Init(s, window, db)
    ensures Separated(Run(s, events).log, window)
  {
    RunKeeps(s, events);
  }

  // ---------------------------------------------------------- serial equivalence

  /** A transaction cannot tell apart two databases that agree on what it reads. */
  lemma {:induction false} RunAgrees(p: Program, db1: Db, db2: Db, n: nat)
    requires forall l :: l in RunAlone(p, db1, n).read ==> Lookup(db1, l) == Lookup(db2, l)
    ensures RunAlone(p, db2, n) == RunAlone(p, db1, n)
  {
    if n > 0 {
      assert RunAlone(p, db1, n - 1).read <= RunAlone(p, db1, n).read;
      RunAgrees(p, db1, db2, n - 1);
    }
  }

  /** Commits between `i` and `j` that do not write `l` leave it as it was. */
  lemma {:induction false} UntouchedBetween(s: System, i: nat, j: nat, l: Location)
    requires HistoryChain(s.history, s.log) && i <= j <= |s.log|
    requires forall k :: i <= k < j ==> l !in s.log[k].final.buffer
    ensures Lookup(s.history[i], l) == Lookup(s.history[j], l)
    decreases j
  {
    if i < j {
      UntouchedBetween(s, i, j - 1, l);
      assert s.history[j] == s.history[j - 1] + s.log[j - 1].final.buffer;
    }
  }

  /** Every transaction committed within `window` commits of its snapshot. */
  ghost predicate FreshSnapshots(log: seq<Entry>, window: nat) {
    forall i :: 0 <= i < |log| ==> i - log[i].snapshot <= window
  }

  /** Commit `i` would have done the same had it run alone on the state commit `i - 1` left. */
  lemma EntryIsSerial(s: System, i: nat)
    requires Inv(s) && i < |s.log|
    requires i - s.log[i].snapshot <= s.cert.window
    ensures RunAlone(s.log[i].program, s.history[i], s.log[i].steps) == s.log[i].final
  {
    var e := s.log[i];
    assert EntryRan(s.history, e);
    forall l | l in e.final.read
      ensures Lookup(s.history[e.snapshot], l) == Lookup(s.history[i], l)
    {
      forall k | e.snapshot <= k < i ensures l !in s.log[k].final.buffer {
        assert MissedBy(s.log[k], e);
      }
      UntouchedBetween(s, e.snapshot, i, l);
    }
    RunAgrees(e.program, s.history[e.snapshot], s.history[i], e.steps);
  }

  /** The certified programs run one after the other, nothing else happening. */
  function SerialReplay(log: seq<Entry>, db: Db): Db {
    if log == [] then db else
    var before := SerialReplay(log[..|log| - 1], db);
    var last := log[|log| - 1];
    before + RunAlone(last.program, before, last.steps).buffer
  }

  /** Run alone in this order, every program sees and writes exactly what it saw and wrote. */
  ghost predicate Faithful(order: seq<Entry>, db: Db) {
    order == [] ||
    var before := order[..|order| - 1];
    var last := order[|order| - 1];
    Faithful(before, db) && RunAlone(last.program, SerialReplay(before, db), last.steps) == last.final
  }

  /** The serial order accounts for all that was seen and written, and for the database left. */
  ghost predicate Explains(order: seq<Entry>, db: Db, final: Db) {
    Faithful(order, db) && SerialReplay(order, db) == final
  }

  lemma {:induction false} ReplayReaches(s: System, i: nat)
    requires Inv(s) && i <= |s.log| && FreshSnapshots(s.log, s.cert.window)
    ensures Explains(s.log[..i], s.history[0], s.history[i])
  {
    if i > 0 {
      ReplayReaches(s, i - 1);
      EntryIsSerial(s, i - 1);
      assert s.log[..i][..i - 1] == s.log[..i - 1] && s.log[..i][i - 1] == s.log[i - 1];
    }
  }

  /** Serial equivalence: in every run whose transactions commit within `window` commits of their
      snapshots, running the certified programs alone in commit order makes each of them observe the
      same values and write the same values, and ends in the same database. */
  lemma SerialEquivalence(s: System, window: nat, db: Db, events: seq<Event>)
    requires Init(s, window, db)
    requires FreshSnapshots(Run(s, events).log, window)
    ensures
      var end := Run(s, events);
      && |end.history| == |end.log| + 1
      && Explains(end.log, db, end.history[|end.log|])
      && forall i :: 0 <= i < |end.log| ==> end.log[i].program(end.log[i].final.observed).Finish?
  {
    RunKeeps(s, events);
    var end := Run(s, events);
    ReplayReaches(end, |end.log|);
    assert end.log[..|end.log|] == end.log;
    forall i | 0 <= i < |end.log| ensures end.log[i].program(end.log[i].final.observed).Finish? {
      assert EntryRan(end.history, end.log[i]);
    }
  }
}
