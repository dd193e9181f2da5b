/** The driver's per-tablet work: backfill, catch-up and validation beside live writes and crashes. */
module TabletBuild {
  import opened Common
  import opened DdlTypes
  import opened Keyspace
  import opened IndexBuild
  import opened IndexUpkeep

  datatype TabletDataError = NoStagedBuild | NotInstalled
  datatype SinkResult = Done | SinkError(error: TabletDataError)

  /** The shared multi-version rows of one tablet. */
  class InMemoryDdlKeyspace {
    var rows: Rows

    constructor ()
      ensures rows == map[]
    {
      rows := map[];
    }

    method Insert(key: Key, ts: Timestamp, value: Bytes)
      requires AllAscending(rows)
      modifies this
      ensures rows == Committed(old(rows), key, Version(ts, Some(value)))
      ensures AllAscending(rows)
    {
      PlacedInOrder(ChainOf(rows, key), Version(ts, Some(value)), VersionTs);
      rows := Committed(rows, key, Version(ts, Some(value)));
    }

    method Delete(key: Key, ts: Timestamp)
      requires AllAscending(rows)
      modifies this
      ensures rows == Committed(old(rows), key, Version(ts, None))
      ensures AllAscending(rows)
    {
      PlacedInOrder(ChainOf(rows, key), Version(ts, None), VersionTs);
      rows := Committed(rows, key, Version(ts, None));
    }

    /** Every version above `ts`, oldest first; a key's own versions keep their order. */
    method DeltasAfter(ts: Timestamp) returns (d: seq<Delta>)
      requires AllAscending(rows)
      ensures IsDeltaStream(rows, ts, d)
    {
      d := [];
      var pending := rows.Keys;
      while pending != {}
        invariant pending <= rows.Keys && Ordered(d)
        invariant forall k :: PerKey(d, k) == if k in pending then [] else Above(ChainOf(rows, k), ts)
      {
        var key :| key in pending;
        d := Collect(d, key, rows[key], ts);
        pending := pending - {key};
      }
    }
  }

  /** What is collected of a key is older than the key's next version. */
  lemma NoneLater(d: seq<Delta>, key: Key, chain: Chain, i: nat, ts: Timestamp)
    requires Ascending(chain) && i < |chain| && PerKey(d, key) == Above(chain[..i], ts)
    ensures forall j :: 0 <= j < |d| && d[j].key == key ==> d[j].ts <= chain[i].ts
  {
    forall j | 0 <= j < |d| && d[j].key == key ensures d[j].ts <= chain[i].ts {
      StreamInPerKey(d, j);
      assert Version(d[j].ts, d[j].value) in chain[..i];
    }
  }

  /** Placing the next version of a key extends its part of the stream and no other. */
  lemma NextCollected(d: seq<Delta>, key: Key, chain: Chain, i: nat, ts: Timestamp)
    requires Ordered(d) && Ascending(chain) && i < |chain| && chain[i].ts > ts && PerKey(d, key) == Above(chain[..i], ts)
    ensures
      var d' := Placed(d, Delta(chain[i].ts, key, chain[i].value), DeltaTs);
      && Ordered(d') && PerKey(d', key) == Above(chain[..i + 1], ts)
      && forall k :: k != key ==> PerKey(d', k) == PerKey(d, k)
  {
    var x := Delta(chain[i].ts, key, chain[i].value);
    PlacedInOrder(d, x, DeltaTs);
    OwnKeyCollected(d, key, chain, i, ts);
    forall k | k != key ensures PerKey(Placed(d, x, DeltaTs), k) == PerKey(d, k) {
      NoneLater(d, key, chain, i, ts);
      PlacedPerKey(d, x, k);
    }
  }

  lemma OwnKeyCollected(d: seq<Delta>, key: Key, chain: Chain, i: nat, ts: Timestamp)
    requires Ordered(d) && Ascending(chain) && i < |chain| && chain[i].ts > ts && PerKey(d, key) == Above(chain[..i], ts)
    ensures PerKey(Placed(d, Delta(chain[i].ts, key, chain[i].value), DeltaTs), key) == Above(chain[..i + 1], ts)
  {
    NoneLater(d, key, chain, i, ts);
    PlacedPerKey(d, Delta(chain[i].ts, key, chain[i].value), key);
    assert chain[..i + 1][..i] == chain[..i];
  }

  method Collect(before: seq<Delta>, key: Key, chain: Chain, ts: Timestamp) returns (d: seq<Delta>)
    requires Ordered(before) && Ascending(chain) && PerKey(before, key) == []
    ensures Ordered(d)
    ensures PerKey(d, key) == Above(chain, ts)
    ensures forall k :: k != key ==> PerKey(d, k) == PerKey(before, k)
  {
    d := before;
    for i := 0 to |chain|
      invariant Ordered(d)
      invariant PerKey(d, key) == Above(chain[..i], ts)
      invariant forall k :: k != key ==> PerKey(d, k) == PerKey(before, k)
    {
      if chain[i].ts > ts {
        NextCollected(d, key, chain, i, ts);
        d := Placed(d, Delta(chain[i].ts, key, chain[i].value), DeltaTs);
      } else {
        assert chain[..i + 1][..i] == chain[..i];
      }
    }
    assert chain[..|chain|] == chain;
  }

  function Entries(gens: map<string, Generation>, name: string): Generation {
    if name in gens then gens[name] else map[]
  }

  /** Dual maintenance: the raw row lands in every maintained generation that is installed. */
  ghost predicate IsUpkeep(gens: map<string, Generation>, names: seq<string>, key: Key, row: Option<Bytes>, gens': map<string, Generation>) {
    && gens'.Keys == gens.Keys
    && forall n :: n in gens ==> gens'[n] == if n in names then Put(gens[n], key, row) else gens[n]
  }

  class InMemoryTabletIndexes {
    var maintained: seq<string>
    var staged: map<string, Generation>
    var generations: map<string, Generation>
    var beginBuilds: nat

    constructor ()
      ensures maintained == [] && staged == map[] && generations == map[] && beginBuilds == 0
    {
      maintained, staged, generations, beginBuilds := [], map[], map[], 0;
    }

    method BeginBuild(index: string)
      modifies this`staged, this`beginBuilds
      ensures staged == old(staged)[index := map[]] && beginBuilds == old(beginBuilds) + 1
    {
      staged := staged[index := map[]];
      beginBuilds := beginBuilds + 1;
    }

    method StageEntry(index: string, key: Key, entry: Bytes) returns (r: SinkResult)
      modifies this`staged
      ensures r == if index in old(staged) then Done else SinkError(NoStagedBuild)
      ensures staged == if index in old(staged) then old(staged)[index := old(staged)[index][key := entry]] else old(staged)
    {
      if index !in staged {
        return SinkError(NoStagedBuild);
      }
      staged := staged[index := staged[index][key := entry]];
      return Done;
    }

    method InstallStaged(index: string) returns (r: SinkResult)
      modifies this`staged, this`generations
      ensures r == if index in old(staged) then Done else SinkError(NoStagedBuild)
      ensures staged == old(staged) - {index}
      ensures generations == if index in old(staged) then old(generations)[index := old(staged)[index]] else old(generations)
    {
      if index !in staged {
        assert staged - {index} == staged;
        return SinkError(NoStagedBuild);
      }
      generations := generations[index := staged[index]];
      staged := staged - {index};
      return Done;
    }

    method ApplyDelta(index: string, key: Key, entry: Option<Bytes>) returns (r: SinkResult)
      modifies this`generations
      ensures r == if index in old(generations) then Done else SinkError(NotInstalled)
      ensures generations == if index in old(generations) then old(generations)[index := Put(old(generations)[index], key, entry)] else old(generations)
    {
      if index !in generations {
        return SinkError(NotInstalled);
      }
      generations := generations[index := Put(generations[index], key, entry)];
      return Done;
    }

    method DropGeneration(index: string)
      modifies this`staged, this`generations
      ensures staged == old(staged) - {index} && generations == old(generations) - {index}
    {
      staged, generations := staged - {index}, generations - {index};
    }

    method SyncDefinitions(names: seq<string>)
      modifies this`maintained
      ensures maintained == names
    {
      maintained := names;
    }

    method ApplyCommittedWrite(key: Key, row: Option<Bytes>)
      modifies this`generations
      ensures IsUpkeep(old(generations), maintained, key, row, generations)
    {
      for i := 0 to |maintained|
        invariant IsUpkeep(old(generations), maintained[..i], key, row, generations)
      {
        var name := maintained[i];
        assert forall n :: n in maintained[..i + 1] <==> n in maintained[..i] || n == name;
        if name in generations {
          generations := generations[name := Put(generations[name], key, row)];
        }
      }
      assert maintained[..|maintained|] == maintained;
    }
  }

  /** One committed write through the apply path: the row, then the maintained generations. */
  method CommitWrite(ks: InMemoryDdlKeyspace, ix: InMemoryTabletIndexes, key: Key, ts: Timestamp, row: Option<Bytes>)
    requires AllAscending(ks.rows)
    modifies ks, ix`generations
    ensures ks.rows == Committed(old(ks.rows), key, Version(ts, row)) && AllAscending(ks.rows)
    ensures IsUpkeep(old(ix.generations), ix.maintained, key, row, ix.generations)
  {
    match row {
      case Some(r) => ks.Insert(key, ts, r);
      case None => ks.Delete(key, ts);
    }
    ix.ApplyCommittedWrite(key, row);
  }

  /** Any number of commits above `floor` land before the driver's next action. */
  method Race(ks: InMemoryDdlKeyspace, ix: InMemoryTabletIndexes, ghost index: string, floor: Timestamp, budget: nat) returns (left: nat)
    requires AllAscending(ks.rows)
    modifies ks, ix`generations
    ensures left <= budget && AllAscending(ks.rows)
    ensures ix.generations.Keys == old(ix.generations).Keys
    ensures Raced(old(ks.rows), Entries(old(ix.generations), index), ks.rows, Entries(ix.generations, index), floor)
    ensures left == budget ==> ks.rows == old(ks.rows) && ix.generations == old(ix.generations)
    ensures left < budget ==> !Drained(ks.rows, floor)
  {
    left := budget;
    while left > 0
      invariant left <= budget && AllAscending(ks.rows)
      invariant ix.generations.Keys == old(ix.generations).Keys
      invariant Raced(old(ks.rows), Entries(old(ix.generations), index), ks.rows, Entries(ix.generations, index), floor)
      invariant left == budget ==> ks.rows == old(ks.rows) && ix.generations == old(ix.generations)
      invariant left < budget ==> !Drained(ks.rows, floor)
    {
      if * {
        return;
      }
      var key: Key, row: Option<Bytes> := *, *;
      var ts: Timestamp :| ts > floor;
      ghost var mid, h := ks.rows, Entries(ix.generations, index);
      CommitWrite(ks, ix, key, ts, row);
      RacedAgain(old(ks.rows), Entries(old(ix.generations), index), mid, h, floor, key, Version(ts, row), Entries(ix.generations, index));
      assert Version(ts, row) in ChainOf(ks.rows, key);
      assert !NoneAbove(ChainOf(ks.rows, key), floor);
      left := left - 1;
    }
  }

  // -------------------------------------------------------------- the driver

  /** A step finishes, dies with the driver, or is refused by the sink. */
  datatype Outcome<T> = Finished(value: T) | Crashed | Refused(error: TabletDataError)

  /** Apply one delta stream, racing writes and crashing anywhere. */
  method Sweep(ks: InMemoryDdlKeyspace, ix: InMemoryTabletIndexes, index: string, p: Projection,
               ghost from: Timestamp, d: seq<Delta>, m: Timestamp, mortal: bool, budget: nat)
    returns (r: Outcome<()>, left: nat)
    requires AllAscending(ks.rows) && from <= m && AllMoved(ks.rows, d, from)
    requires index in ix.generations ==> Sweeping(p, ks.rows, ix.generations[index], d, m)
    requires index in ix.generations ==> Settled(p, ks.rows, ix.generations[index], from)
    modifies ks, ix`generations
    ensures AllAscending(ks.rows) && left <= budget && ix.generations.Keys == old(ix.generations).Keys
    ensures Frozen(old(ks.rows), ks.rows, m)
    ensures left == budget ==> ks.rows == old(ks.rows)
    ensures r.Refused? ==> index !in ix.generations
    ensures index in ix.generations ==> Settled(p, ks.rows, ix.generations[index], from)
    ensures index in ix.generations && r.Finished? ==> Settled(p, ks.rows, ix.generations[index], m)
    ensures index !in ix.generations && r.Finished? ==> d == []
    ensures r.Crashed? ==> mortal
  {
    left := budget;
    var rest := d;
    while rest != []
      invariant AllAscending(ks.rows) && left <= budget && ix.generations.Keys == old(ix.generations).Keys
      invariant Frozen(old(ks.rows), ks.rows, m)
      invariant left == budget ==> ks.rows == old(ks.rows)
      invariant AllMoved(ks.rows, rest, from)
      invariant index in ix.generations ==> Sweeping(p, ks.rows, ix.generations[index], rest, m)
      invariant index in ix.generations ==> Settled(p, ks.rows, ix.generations[index], from)
      invariant index !in ix.generations ==> rest == d
      decreases |rest|
    {
      var dies := Dies(mortal);
      if dies {
        return Crashed, left;
      }
      left := RaceInSweep(ks, ix, index, p, from, rest, m, left);
      var x := rest[0];
      ghost var g := Entries(ix.generations, index);
      var applied := ix.ApplyDelta(index, x.key, Entry(p, x.key, x.value));
      if applied.SinkError? {
        return Refused(applied.error), left;
      }
      ApplyContinuesSweep(p, ks.rows, g, rest, m, ix.generations[index]);
      ApplyKeepsSettled(p, ks.rows, g, from, x.key, Entry(p, x.key, x.value));
      rest := rest[1..];
    }
    if index in ix.generations {
      SweepSettles(p, ks.rows, ix.generations[index], m);
    }
    r := Finished(());
  }

  /** Writes racing the middle of a sweep. */
  method RaceInSweep(ks: InMemoryDdlKeyspace, ix: InMemoryTabletIndexes, ghost index: string, ghost p: Projection,
                     ghost from: Timestamp, ghost rest: seq<Delta>, m: Timestamp, budget: nat)
    returns (left: nat)
    requires AllAscending(ks.rows) && from <= m && AllMoved(ks.rows, rest, from)
    requires index in ix.generations ==> Sweeping(p, ks.rows, ix.generations[index], rest, m)
    requires index in ix.generations ==> Settled(p, ks.rows, ix.generations[index], from)
    modifies ks, ix`generations
    ensures AllAscending(ks.rows) && left <= budget && ix.generations.Keys == old(ix.generations).Keys
    ensures Frozen(old(ks.rows), ks.rows, m) && AllMoved(ks.rows, rest, from)
    ensures left == budget ==> ks.rows == old(ks.rows)
    ensures index in ix.generations ==> Sweeping(p, ks.rows, ix.generations[index], rest, m)
    ensures index in ix.generations ==> Settled(p, ks.rows, ix.generations[index], from)
  {
    ghost var rows, g := ks.rows, Entries(ix.generations, index);
    left := Race(ks, ix, index, m, budget);
    ghost var g' := Entries(ix.generations, index);
    RacedKeepsMoved(rows, g, ks.rows, g', rest, m, from);
    if index in ix.generations {
      RacedKeepsSweeping(p, rows, g, ks.rows, g', rest, m);
      RacedKeepsSettled(p, rows, g, ks.rows, g', m, from);
    }
  }

  function Newest(d: seq<Delta>, w: Timestamp): (m: Timestamp)
    ensures w <= m
    ensures forall i :: 0 <= i < |d| ==> d[i].ts <= m
    ensures m == w || exists i :: 0 <= i < |d| && d[i].ts == m
  {
    if d == [] then w else
    var m := Newest(d[..|d| - 1], w);
    if d[|d| - 1].ts > m then d[|d| - 1].ts else m
  }

  /**
   * Sweep committed deltas forward until a read finds none. Finitely many racing writes make the
   * loop end; when it ends the generation equals a from-scratch build at the watermark, and a
   * crash anywhere leaves the build resumable from the same cursor.
   */
  method CatchUpTablet(ks: InMemoryDdlKeyspace, ix: InMemoryTabletIndexes, index: string, p: Projection, from: Timestamp, mortal: bool, budget: nat)
    returns (r: Outcome<Timestamp>, left: nat)
    requires AllAscending(ks.rows)
    requires index in ix.generations ==> Settled(p, ks.rows, ix.generations[index], from)
    modifies ks, ix`generations
    ensures AllAscending(ks.rows) && left <= budget && ix.generations.Keys == old(ix.generations).Keys
    ensures Frozen(old(ks.rows), ks.rows, from)
    ensures r.Refused? ==> index !in ix.generations
    ensures index in ix.generations ==> Settled(p, ks.rows, ix.generations[index], from)
    ensures r.Crashed? ==> mortal
    ensures r.Finished? ==> IsMark(ks.rows, from, r.value) && Drained(ks.rows, r.value)
    ensures r.Finished? && index in ix.generations ==> ix.generations[index] == Projected(p, RowsAt(ks.rows, r.value))
    ensures r.Finished? && index !in ix.generations ==> r.value == from
  {
    left := budget;
    var watermark := from;
    while true
      invariant AllAscending(ks.rows) && left <= budget && ix.generations.Keys == old(ix.generations).Keys
      invariant Frozen(old(ks.rows), ks.rows, from) && IsMark(ks.rows, from, watermark)
      invariant index in ix.generations ==> Settled(p, ks.rows, ix.generations[index], from)
      invariant index in ix.generations ==> Settled(p, ks.rows, ix.generations[index], watermark)
      invariant index !in ix.generations ==> watermark == from
      decreases left, if Drained(ks.rows, watermark) then 0 else 1
    {
      ghost var rows := ks.rows;
      var round;
      round, left := SweepOnce(ks, ix, index, p, from, watermark, mortal, left);
      FrozenTrans(old(ks.rows), rows, ks.rows, from, watermark);
      MarkKept(rows, ks.rows, from, watermark, watermark);
      match round {
        case Crashed => return Crashed, left;
        case Refused(e) => return Refused(e), left;
        case Finished(None) => return Finished(watermark), left;
        case Finished(Some(m)) => watermark := m;
      }
    }
  }

  lemma FrozenTrans(rows: Rows, mid: Rows, rows': Rows, floor: Timestamp, above: Timestamp)
    requires Frozen(rows, mid, floor) && Frozen(mid, rows', above) && floor <= above
    ensures Frozen(rows, rows', floor)
  {
  }

  /** One delta read above the watermark, applied: the new watermark, or none when nothing was read. */
  method SweepOnce(ks: InMemoryDdlKeyspace, ix: InMemoryTabletIndexes, index: string, p: Projection,
                   ghost from: Timestamp, w: Timestamp, mortal: bool, budget: nat)
    returns (r: Outcome<Option<Timestamp>>, left: nat)
    requires AllAscending(ks.rows) && from <= w
    requires index in ix.generations ==> Settled(p, ks.rows, ix.generations[index], from)
    requires index in ix.generations ==> Settled(p, ks.rows, ix.generations[index], w)
    modifies ks, ix`generations
    ensures AllAscending(ks.rows) && left <= budget && ix.generations.Keys == old(ix.generations).Keys
    ensures Frozen(old(ks.rows), ks.rows, w)
    ensures r.Refused? ==> index !in ix.generations
    ensures index in ix.generations ==> Settled(p, ks.rows, ix.generations[index], from)
    ensures r == Finished(None) ==> Drained(ks.rows, w)
    ensures r == Finished(None) && index in ix.generations ==> ix.generations[index] == Projected(p, RowsAt(ks.rows, w))
    ensures r.Crashed? ==> mortal
    ensures r.Finished? && r.value.Some? ==> IsMark(ks.rows, w, r.value.value) && index in ix.generations
    ensures r.Finished? && r.value.Some? ==> Settled(p, ks.rows, ix.generations[index], r.value.value)
    ensures r.Finished? && r.value.Some? && left == budget ==> !old(Drained(ks.rows, w)) && Drained(ks.rows, r.value.value)
  {
    left := RaceAtRest(ks, ix, index, p, from, w, budget);
    var d := ks.DeltasAfter(w);
    if d == [] {
      EmptyStreamDrains(ks.rows, w);
      if index in ix.generations {
        DrainedIsExact(p, ks.rows, ix.generations[index], w);
      }
      return Finished(None), left;
    }
    var m := Newest(d, w);
    StreamBounds(ks.rows, w, d, m);
    NewestIsMark(ks.rows, w, d);
    StreamMoved(ks.rows, w, d, from);
    StreamNotDrained(ks.rows, w, d);
    if index in ix.generations {
      ReadStartsSweep(p, ks.rows, ix.generations[index], w, d, m);
    }
    ghost var rows := ks.rows;
    var swept;
    swept, left := Sweep(ks, ix, index, p, from, d, m, mortal, left);
    FrozenTrans(old(ks.rows), rows, ks.rows, w, m);
    MarkKept(rows, ks.rows, w, m, m);
    r := match swept
      case Crashed => Crashed
      case Refused(e) => Refused(e)
      case Finished(_) => Finished(Some(m));
  }

  lemma NewestIsMark(rows: Rows, w: Timestamp, d: seq<Delta>)
    requires IsDeltaStream(rows, w, d)
    ensures IsMark(rows, w, Newest(d, w))
  {
    var m := Newest(d, w);
    if m != w {
      var i :| 0 <= i < |d| && d[i].ts == m;
      StreamInPerKey(d, i);
      assert Version(d[i].ts, d[i].value) in Above(ChainOf(rows, d[i].key), w);
    }
  }

  lemma StreamNotDrained(rows: Rows, w: Timestamp, d: seq<Delta>)
    requires IsDeltaStream(rows, w, d) && d != []
    ensures !Drained(rows, w)
  {
    StreamMoved(rows, w, d, w);
    assert !NoneAbove(ChainOf(rows, d[0].key), w);
  }

  /** Writes racing the gap between two delta reads. */
  method RaceAtRest(ks: InMemoryDdlKeyspace, ix: InMemoryTabletIndexes, ghost index: string, ghost p: Projection,
                    ghost from: Timestamp, w: Timestamp, budget: nat)
    returns (left: nat)
    requires AllAscending(ks.rows) && from <= w
    requires index in ix.generations ==> Settled(p, ks.rows, ix.generations[index], from)
    requires index in ix.generations ==> Settled(p, ks.rows, ix.generations[index], w)
    modifies ks, ix`generations
    ensures AllAscending(ks.rows) && left <= budget && ix.generations.Keys == old(ix.generations).Keys
    ensures Frozen(old(ks.rows), ks.rows, w)
    ensures left == budget ==> ks.rows == old(ks.rows) && ix.generations == old(ix.generations)
    ensures left < budget || !old(Drained(ks.rows, w)) ==> !Drained(ks.rows, w)
    ensures index in ix.generations ==> Settled(p, ks.rows, ix.generations[index], from)
    ensures index in ix.generations ==> Settled(p, ks.rows, ix.generations[index], w)
  {
    ghost var rows, g := ks.rows, Entries(ix.generations, index);
    left := Race(ks, ix, index, w, budget);
    if index in ix.generations {
      RacedKeepsSettled(p, rows, g, ks.rows, ix.generations[index], w, from);
      RacedKeepsSettled(p, rows, g, ks.rows, ix.generations[index], w, w);
    }
  }

  lemma ProjectedGrows(p: Projection, snapshot: map<Key, Bytes>, pending: set<Key>, key: Key)
    requires key in pending && pending <= snapshot.Keys
    ensures Projected(p, snapshot - pending)[key := p(key, snapshot[key])] == Projected(p, snapshot - (pending - {key}))
  {
  }

  /** Stage the projected snapshot, entry by entry, beside live writes. */
  method StageSnapshot(ks: InMemoryDdlKeyspace, ix: InMemoryTabletIndexes, index: string, p: Projection,
                       snapshot: map<Key, Bytes>, pin: Timestamp, mortal: bool, budget: nat)
    returns (r: Outcome<nat>, left: nat)
    requires AllAscending(ks.rows) && index in ix.staged && ix.staged[index] == map[]
    modifies ks, ix`generations, ix`staged
    ensures AllAscending(ks.rows) && left <= budget && ix.generations.Keys == old(ix.generations).Keys
    ensures Frozen(old(ks.rows), ks.rows, pin) && !r.Refused? && (r.Crashed? ==> mortal)
    ensures r.Finished? ==> r.value == |snapshot| && index in ix.staged && ix.staged[index] == Projected(p, snapshot)
  {
    left := budget;
    var scanned, pending := 0, snapshot.Keys;
    while pending != {}
      invariant AllAscending(ks.rows) && left <= budget && ix.generations.Keys == old(ix.generations).Keys
      invariant Frozen(old(ks.rows), ks.rows, pin)
      invariant index in ix.staged && pending <= snapshot.Keys && scanned + |pending| == |snapshot|
      invariant ix.staged[index] == Projected(p, snapshot - pending)
      decreases |pending|
    {
      var dies := Dies(mortal);
      if dies {
        return Crashed, left;
      }
      ghost var rows := ks.rows;
      left := Race(ks, ix, index, pin, left);
      FrozenTrans(old(ks.rows), rows, ks.rows, pin, pin);
      var key :| key in pending;
      var stagedOk := ix.StageEntry(index, key, p(key, snapshot[key]));
      ProjectedGrows(p, snapshot, pending, key);
      scanned, pending := scanned + 1, pending - {key};
    }
    assert snapshot - pending == snapshot;
    r := Finished(scanned);
  }

  /**
   * Stage every row of the snapshot, swap the build in, catch up. Nothing is asked of what an
   * earlier, crashed attempt left staged or installed.
   */
  method BackfillTablet(ks: InMemoryDdlKeyspace, ix: InMemoryTabletIndexes, tablet: TabletId, index: string, p: Projection,
                        pin: Timestamp, mortal: bool, budget: nat)
    returns (r: Outcome<TabletDdlProgress>, left: nat)
    requires AllAscending(ks.rows)
    modifies ks, ix`generations, ix`staged, ix`beginBuilds
    ensures AllAscending(ks.rows) && left <= budget && !r.Refused? && (r.Crashed? ==> mortal)
    ensures ix.generations.Keys - {index} == old(ix.generations).Keys - {index}
    ensures Frozen(old(ks.rows), ks.rows, pin)
    ensures r.Finished? ==> r.value.tabletId == tablet && r.value.stage == CaughtUp && r.value.validation == None
    ensures ix.beginBuilds == old(ix.beginBuilds) + 1
    ensures r.Finished? ==> r.value.rowsScanned == |RowsAt(ks.rows, pin)|
    ensures r.Finished? ==> index in ix.generations && index !in ix.staged
    ensures r.Finished? ==> r.value.caughtUpThrough.Some? && Drained(ks.rows, r.value.caughtUpThrough.value)
    ensures r.Finished? ==> IsMark(ks.rows, pin, r.value.caughtUpThrough.value)
    ensures r.Finished? ==> ix.generations[index] == Projected(p, RowsAt(ks.rows, r.value.caughtUpThrough.value))
  {
    var installed;
    installed, left := InstallSnapshot(ks, ix, index, p, pin, mortal, budget);
    if !installed.Finished? {
      return Crashed, left;
    }
    ExactIsSettled(p, ks.rows, pin);
    ghost var rows := ks.rows;
    var caught;
    caught, left := CatchUpTablet(ks, ix, index, p, pin, mortal, left);
    FrozenTrans(old(ks.rows), rows, ks.rows, pin, pin);
    FrozenRows(rows, ks.rows, pin, pin);
    if !caught.Finished? {
      return Crashed, left;
    }
    r := Finished(TabletDdlProgress(tablet, CaughtUp, installed.value, Some(caught.value), None));
  }

  /** Begin a build, stage the snapshot, swap it in. */
  method InstallSnapshot(ks: InMemoryDdlKeyspace, ix: InMemoryTabletIndexes, index: string, p: Projection, pin: Timestamp, mortal: bool, budget: nat)
    returns (r: Outcome<nat>, left: nat)
    requires AllAscending(ks.rows)
    modifies ks, ix`generations, ix`staged, ix`beginBuilds
    ensures AllAscending(ks.rows) && left <= budget && !r.Refused? && (r.Crashed? ==> mortal)
    ensures ix.generations.Keys - {index} == old(ix.generations).Keys - {index}
    ensures Frozen(old(ks.rows), ks.rows, pin) && ix.beginBuilds == old(ix.beginBuilds) + 1
    ensures r.Finished? ==> r.value == |RowsAt(ks.rows, pin)| && index in ix.generations && index !in ix.staged
    ensures r.Finished? ==> ix.generations[index] == Projected(p, RowsAt(ks.rows, pin))
  {
    ix.BeginBuild(index);
    var snapshot := RowsAt(ks.rows, pin);
    r, left := StageSnapshot(ks, ix, index, p, snapshot, pin, mortal, budget);
    if r.Finished? {
      FrozenRows(old(ks.rows), ks.rows, pin, pin);
      var installed := ix.InstallStaged(index);
    }
  }

  /**
   * A final catch-up, then a from-scratch build at the watermark against the generation. With
   * nothing above the watermark at the end the two are equal and the report passes; something above
   * it is a write that landed after the last delta read.
   */
  method ValidateTablet(ks: InMemoryDdlKeyspace, ix: InMemoryTabletIndexes, tablet: TabletId, index: string, p: Projection,
                        checksum: Generation -> seq<nat>, from: Timestamp, mortal: bool, budget: nat)
    returns (r: Outcome<TabletValidationReport>, left: nat)
    requires AllAscending(ks.rows)
    requires index in ix.generations ==> Settled(p, ks.rows, ix.generations[index], from)
    modifies ks, ix`generations
    ensures AllAscending(ks.rows) && left <= budget && ix.generations.Keys == old(ix.generations).Keys
    ensures Frozen(old(ks.rows), ks.rows, from)
    ensures r.Refused? ==> index !in ix.generations
    ensures index in ix.generations ==> Settled(p, ks.rows, ix.generations[index], from)
    ensures r.Crashed? ==> mortal
    ensures r.Finished? ==> IsMark(ks.rows, from, r.value.watermark) && (left == budget ==> Drained(ks.rows, r.value.watermark))
    ensures r.Finished? ==> IsReport(r.value, tablet, checksum, Projected(p, RowsAt(ks.rows, r.value.watermark)), Entries(ix.generations, index))
    ensures r.Finished? && index in ix.generations ==> Settled(p, ks.rows, ix.generations[index], r.value.watermark)
    ensures r.Finished? && index in ix.generations && Drained(ks.rows, r.value.watermark) ==> r.value.Passed()
    ensures r.Finished? && index in ix.generations && Drained(ks.rows, r.value.watermark) ==>
      ix.generations[index] == Projected(p, RowsAt(ks.rows, r.value.watermark))
  {
    var caught;
    caught, left := CatchUpTablet(ks, ix, index, p, from, mortal, budget);
    match caught {
      case Crashed => return Crashed, left;
      case Refused(e) => return Refused(e), left;
      case Finished(w) =>
        ghost var settled := ks.rows;
        if index in ix.generations {
          ExactIsSettled(p, ks.rows, w);
        }
        left := RaceAtRest(ks, ix, index, p, from, w, left);
        var expected := Projected(p, RowsAt(ks.rows, w));
        ghost var mid := ks.rows;
        left := RaceAtRest(ks, ix, index, p, from, w, left);
        FrozenRows(mid, ks.rows, w, w);
        FrozenTrans(settled, mid, ks.rows, w, w);
        FrozenTrans(old(ks.rows), settled, ks.rows, from, w);
        MarkKept(settled, ks.rows, from, w, w);
        if index in ix.generations && Drained(ks.rows, w) {
          DrainedIsExact(p, ks.rows, ix.generations[index], w);
        }
        var actual := Entries(ix.generations, index);
        r := Finished(TabletValidationReport(tablet, w, |expected|, |actual|, checksum(expected), checksum(actual)));
    }
  }

  ghost predicate IsReport(r: TabletValidationReport, tablet: TabletId, checksum: Generation -> seq<nat>, expected: Generation, actual: Generation) {
    r == TabletValidationReport(tablet, r.watermark, |expected|, |actual|, checksum(expected), checksum(actual))
  }

  lemma ExactIsSettled(p: Projection, rows: Rows, w: Timestamp)
    ensures Settled(p, rows, Projected(p, RowsAt(rows, w)), w)
  {
  }

  /** Backfill again and again until a driver completes one; each attempt begins one build. */
  method BackfillWithReplacements(ks: InMemoryDdlKeyspace, ix: InMemoryTabletIndexes, tablet: TabletId, index: string, p: Projection,
                                  pin: Timestamp, mortal: bool, budget: nat, lives: nat)
    returns (cursor: Option<Timestamp>, left: nat)
    requires AllAscending(ks.rows)
    modifies ks, ix`generations, ix`staged, ix`beginBuilds
    ensures AllAscending(ks.rows) && left <= budget && Frozen(old(ks.rows), ks.rows, pin)
    ensures old(ix.beginBuilds) <= ix.beginBuilds <= old(ix.beginBuilds) + lives
    ensures cursor.None? ==> ix.beginBuilds == old(ix.beginBuilds) + lives && (mortal || lives == 0)
    ensures cursor.Some? ==> IsMark(ks.rows, pin, cursor.value) && index in ix.generations && index !in ix.staged
    ensures cursor.Some? ==> Drained(ks.rows, cursor.value) && ix.generations[index] == Projected(p, RowsAt(ks.rows, cursor.value))
  {
    cursor, left := None, budget;
    for life := 0 to lives
      invariant AllAscending(ks.rows) && left <= budget && Frozen(old(ks.rows), ks.rows, pin)
      invariant cursor.None? && ix.beginBuilds == old(ix.beginBuilds) + life && (mortal || life == 0)
    {
      ghost var rows := ks.rows;
      var built;
      built, left := BackfillTablet(ks, ix, tablet, index, p, pin, mortal, left);
      FrozenTrans(old(ks.rows), rows, ks.rows, pin, pin);
      if built.Finished? {
        return built.value.caughtUpThrough, left;
      }
    }
  }

  /** Validate again and again from the durable cursor; no build is begun, whoever dies. */
  method ValidateWithReplacements(ks: InMemoryDdlKeyspace, ix: InMemoryTabletIndexes, tablet: TabletId, index: string, p: Projection,
                                  checksum: Generation -> seq<nat>, cursor: Timestamp, mortal: bool, budget: nat, lives: nat)
    returns (r: Option<TabletValidationReport>, left: nat)
    requires AllAscending(ks.rows) && index in ix.generations && Settled(p, ks.rows, ix.generations[index], cursor)
    modifies ks, ix`generations
    ensures AllAscending(ks.rows) && left <= budget && Frozen(old(ks.rows), ks.rows, cursor) && index in ix.generations
    ensures r.None? ==> mortal || lives == 0
    ensures r.Some? ==> IsMark(ks.rows, cursor, r.value.watermark) && (left == budget ==> Drained(ks.rows, r.value.watermark))
    ensures r.Some? ==> IsReport(r.value, tablet, checksum, Projected(p, RowsAt(ks.rows, r.value.watermark)), ix.generations[index])
    ensures r.Some? ==> Settled(p, ks.rows, ix.generations[index], r.value.watermark)
    ensures r.Some? && Drained(ks.rows, r.value.watermark) ==> r.value.Passed() && Tracks(p, ks.rows, ix.generations[index])
  {
    r, left := None, budget;
    for life := 0 to lives
      invariant AllAscending(ks.rows) && left <= budget && Frozen(old(ks.rows), ks.rows, cursor) && r.None? && (mortal || life == 0)
      invariant index in ix.generations && Settled(p, ks.rows, ix.generations[index], cursor)
    {
      ghost var rows := ks.rows;
      var checked;
      checked, left := ValidateTablet(ks, ix, tablet, index, p, checksum, cursor, mortal, left);
      FrozenTrans(old(ks.rows), rows, ks.rows, cursor, cursor);
      if checked.Finished? {
        if Drained(ks.rows, checked.value.watermark) {
          DrainedTracks(p, ks.rows, ix.generations[index], checked.value.watermark);
        }
        return Some(checked.value), left;
      }
    }
  }

  /**
   * The build of one tablet by drivers that may die at any point, each successor starting from the
   * durable cursor. Builds are begun by backfills only, one each. With no racing write at all, and
   * more generally with nothing above the watermark at the end, the report passes and the index
   * answers every key as the newest rows would. The watermark is the pin or the timestamp of a
   * committed version, never past one, and a driver that does not die finishes.
   */
  method BuildTablet(ks: InMemoryDdlKeyspace, ix: InMemoryTabletIndexes, tablet: TabletId, index: string, p: Projection,
                     checksum: Generation -> seq<nat>, pin: Timestamp, mortal: bool, budget: nat, lives: nat)
    returns (r: Option<TabletValidationReport>, left: nat)
    requires AllAscending(ks.rows)
    modifies ks, ix`generations, ix`staged, ix`beginBuilds
    ensures AllAscending(ks.rows) && left <= budget && Frozen(old(ks.rows), ks.rows, pin)
    ensures ix.beginBuilds <= old(ix.beginBuilds) + lives
    ensures r.None? ==> mortal || lives == 0
    ensures r.Some? ==> IsMark(ks.rows, pin, r.value.watermark) && index in ix.generations && (left == budget ==> Drained(ks.rows, r.value.watermark))
    ensures r.Some? ==> IsReport(r.value, tablet, checksum, Projected(p, RowsAt(ks.rows, r.value.watermark)), ix.generations[index])
    ensures r.Some? ==> Settled(p, ks.rows, ix.generations[index], r.value.watermark)
    ensures r.Some? && Drained(ks.rows, r.value.watermark) ==> r.value.Passed() && Tracks(p, ks.rows, ix.generations[index])
  {
    r := None;
    var cursor;
    cursor, left := BackfillWithReplacements(ks, ix, tablet, index, p, pin, mortal, budget, lives);
    if cursor.Some? {
      ExactIsSettled(p, ks.rows, cursor.value);
      ghost var rows := ks.rows;
      r, left := ValidateWithReplacements(ks, ix, tablet, index, p, checksum, cursor.value, mortal, left, lives);
      FrozenTrans(old(ks.rows), rows, ks.rows, pin, cursor.value);
      MarkKept(rows, ks.rows, pin, cursor.value, cursor.value);
    }
  }
}
