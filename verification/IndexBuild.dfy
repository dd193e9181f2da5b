/**
 * What an online index build keeps true while writes land beside it: the invariant between the
 * rows of a tablet and the hidden generation that backfill and catch-up are filling.
 */
module IndexBuild {
  import opened Common
  import opened DdlTypes
  import opened Keyspace

  type Generation = map<Key, Bytes>
  type Projection = (Key, Bytes) -> Bytes

  function Lookup(g: Generation, k: Key): Option<Bytes> {
    if k in g then Some(g[k]) else None
  }

  /** Store an entry, or remove it for a tombstone. */
  function Put(g: Generation, k: Key, entry: Option<Bytes>): Generation {
    match entry
    case Some(e) => g[k := e]
    case None => g - {k}
  }

  function Entry(p: Projection, k: Key, row: Option<Bytes>): Option<Bytes> {
    match row
    case Some(r) => Some(p(k, r))
    case None => None
  }

  /** An index built from scratch over a snapshot. */
  function Projected(p: Projection, snapshot: map<Key, Bytes>): Generation {
    map k | k in snapshot :: p(k, snapshot[k])
  }

  function EntryAt(p: Projection, rows: Rows, k: Key, ts: Timestamp): Option<Bytes> {
    Entry(p, k, Visible(ChainOf(rows, k), ts))
  }

  lemma LookupProjected(p: Projection, rows: Rows, k: Key, ts: Timestamp)
    ensures Lookup(Projected(p, RowsAt(rows, ts)), k) == EntryAt(p, rows, k, ts)
  {
  }

  lemma GenerationsEqual(a: Generation, b: Generation)
    requires forall k :: Lookup(a, k) == Lookup(b, k)
    ensures a == b
  {
    assert forall k :: k in a <==> Lookup(a, k).Some?;
    assert forall k :: k in b <==> Lookup(b, k).Some?;
    assert forall k :: k in a ==> Lookup(a, k) == Some(a[k]);
    assert forall k :: k in b ==> Lookup(b, k) == Some(b[k]);
  }

  // ------------------------------------------------------------- invariants

  /** Nothing in the tablet is newer than `ts`. */
  ghost predicate Drained(rows: Rows, ts: Timestamp) {
    forall k :: NoneAbove(ChainOf(rows, k), ts)
  }

  /** Between sweeps: the generation is right at the watermark for every key without a newer version. */
  ghost predicate Settled(p: Projection, rows: Rows, g: Generation, w: Timestamp) {
    forall k :: NoneAbove(ChainOf(rows, k), w) ==> Lookup(g, k) == EntryAt(p, rows, k, w)
  }

  ghost predicate SweepKeyOk(p: Projection, rows: Rows, g: Generation, rest: seq<Delta>, m: Timestamp, k: Key) {
    var mine := PerKey(rest, k);
    EntryAt(p, rows, k, m) == if mine == [] then Lookup(g, k) else Entry(p, k, mine[|mine| - 1].value)
  }

  /**
   * Inside a sweep that read deltas up to `m` and still has `rest` to apply: a key untouched since
   * the read is either right already, or its last pending delta will make it right.
   */
  ghost predicate Sweeping(p: Projection, rows: Rows, g: Generation, rest: seq<Delta>, m: Timestamp) {
    forall k :: NoneAbove(ChainOf(rows, k), m) ==> SweepKeyOk(p, rows, g, rest, m, k)
  }

  // ------------------------------------------------------- racing writes

  /**
   * What any number of commits above `floor` may have done to a tablet and one generation: a key
   * is as it was, or it now carries a version above `floor`; reads at or below `floor` are unmoved.
   */
  ghost predicate Raced(rows: Rows, g: Generation, rows': Rows, g': Generation, floor: Timestamp) {
    && (forall k :: RacedKey(rows, g, rows', g', floor, k))
    && Frozen(rows, rows', floor)
  }

  /** History at or below `floor` reads the same, and no version is lost. */
  ghost predicate Frozen(rows: Rows, rows': Rows, floor: Timestamp) {
    && (forall k, ts: Timestamp :: ts <= floor ==> Visible(ChainOf(rows', k), ts) == Visible(ChainOf(rows, k), ts))
    && forall k, v :: v in ChainOf(rows, k) ==> v in ChainOf(rows', k)
  }

  /** Some version carries this very timestamp. */
  ghost predicate Stamped(rows: Rows, ts: Timestamp) {
    exists k, v :: v in ChainOf(rows, k) && v.ts == ts
  }

  /** A cursor no sweep has overshot: where it started, or the timestamp of a committed version. */
  ghost predicate IsMark(rows: Rows, from: Timestamp, w: Timestamp) {
    from <= w && (w == from || Stamped(rows, w))
  }

  lemma MarkKept(rows: Rows, rows': Rows, from: Timestamp, w: Timestamp, floor: Timestamp)
    requires IsMark(rows, from, w) && Frozen(rows, rows', floor)
    ensures IsMark(rows', from, w)
  {
    if w != from {
      var k, v :| v in ChainOf(rows, k) && v.ts == w;
      assert v in ChainOf(rows', k);
    }
  }

  ghost predicate RacedKey(rows: Rows, g: Generation, rows': Rows, g': Generation, floor: Timestamp, k: Key) {
    || (ChainOf(rows', k) == ChainOf(rows, k) && Lookup(g', k) == Lookup(g, k))
    || !NoneAbove(ChainOf(rows', k), floor)
  }

  /** One more commit above `floor`, whatever maintenance does with its own key. */
  lemma RacedAgain(rows: Rows, g: Generation, mid: Rows, h: Generation, floor: Timestamp, key: Key, v: Version, h': Generation)
    requires Raced(rows, g, mid, h, floor) && v.ts > floor
    requires forall k :: k != key ==> Lookup(h', k) == Lookup(h, k)
    ensures Raced(rows, g, Committed(mid, key, v), h', floor)
  {
    var after := Committed(mid, key, v);
    assert v in ChainOf(after, key);
    forall k ensures RacedKey(rows, g, after, h', floor, k) {
      assert RacedKey(rows, g, mid, h, floor, k);
      assert k != key ==> ChainOf(after, k) == ChainOf(mid, k);
    }
    forall k, x | x in ChainOf(rows, k) ensures x in ChainOf(after, k) {
      assert x in ChainOf(mid, k);
    }
    forall k, ts: Timestamp | ts <= floor ensures Visible(ChainOf(after, k), ts) == Visible(ChainOf(rows, k), ts) {
      if k == key {
        InsertAbove(ChainOf(mid, key), v, ts);
      } else {
        assert ChainOf(after, k) == ChainOf(mid, k);
      }
    }
  }

  lemma FrozenRows(rows: Rows, rows': Rows, floor: Timestamp, ts: Timestamp)
    requires Frozen(rows, rows', floor) && ts <= floor
    ensures RowsAt(rows', ts) == RowsAt(rows, ts)
  {
    forall k ensures k in RowsAt(rows', ts) <==> k in RowsAt(rows, ts) {
      assert Visible(ChainOf(rows', k), ts) == Visible(ChainOf(rows, k), ts);
    }
    forall k | k in RowsAt(rows, ts) ensures RowsAt(rows', ts)[k] == RowsAt(rows, ts)[k] {
      assert Visible(ChainOf(rows', k), ts) == Visible(ChainOf(rows, k), ts);
    }
  }

  lemma RacedKeepsSettled(p: Projection, rows: Rows, g: Generation, rows': Rows, g': Generation, floor: Timestamp, w: Timestamp)
    requires Settled(p, rows, g, w) && Raced(rows, g, rows', g', floor) && w <= floor
    ensures Settled(p, rows', g', w)
  {
    forall k | NoneAbove(ChainOf(rows', k), w) ensures Lookup(g', k) == EntryAt(p, rows', k, w) {
      assert RacedKey(rows, g, rows', g', floor, k);
    }
  }

  lemma RacedKeepsSweeping(p: Projection, rows: Rows, g: Generation, rows': Rows, g': Generation, rest: seq<Delta>, m: Timestamp)
    requires Sweeping(p, rows, g, rest, m) && Raced(rows, g, rows', g', m)
    ensures Sweeping(p, rows', g', rest, m)
  {
    forall k | NoneAbove(ChainOf(rows', k), m) ensures SweepKeyOk(p, rows', g', rest, m, k) {
      assert RacedKey(rows, g, rows', g', m, k);
      assert SweepKeyOk(p, rows, g, rest, m, k);
    }
  }

  /** Deltas still to apply belong to keys that have moved past `from`. */
  ghost predicate AllMoved(rows: Rows, rest: seq<Delta>, from: Timestamp) {
    forall i :: 0 <= i < |rest| ==> !NoneAbove(ChainOf(rows, rest[i].key), from)
  }

  lemma RacedKeepsMoved(rows: Rows, g: Generation, rows': Rows, g': Generation, rest: seq<Delta>, floor: Timestamp, from: Timestamp)
    requires AllMoved(rows, rest, from) && Raced(rows, g, rows', g', floor) && from <= floor
    ensures AllMoved(rows', rest, from)
  {
    forall i | 0 <= i < |rest| ensures !NoneAbove(ChainOf(rows', rest[i].key), from) {
      assert RacedKey(rows, g, rows', g', floor, rest[i].key);
    }
  }

  lemma StreamMoved(rows: Rows, w: Timestamp, d: seq<Delta>, from: Timestamp)
    requires IsDeltaStream(rows, w, d) && from <= w
    ensures AllMoved(rows, d, from)
  {
    forall i | 0 <= i < |d| ensures !NoneAbove(ChainOf(rows, d[i].key), from) {
      StreamInPerKey(d, i);
      var c := ChainOf(rows, d[i].key);
      assert PerKey(d, d[i].key) == Above(c, w);
      assert Version(d[i].ts, d[i].value) in c;
    }
  }

  lemma {:induction false} StreamInPerKey(d: seq<Delta>, i: nat)
    requires i < |d|
    ensures Version(d[i].ts, d[i].value) in PerKey(d, d[i].key)
  {
    if i < |d| - 1 {
      StreamInPerKey(d[..|d| - 1], i);
      assert d[..|d| - 1][i] == d[i];
    }
  }

  /** Applying part of a sweep and stopping there leaves the build settled where the sweep began. */
  lemma ApplyKeepsSettled(p: Projection, rows: Rows, g: Generation, w: Timestamp, k: Key, entry: Option<Bytes>)
    requires Settled(p, rows, g, w) && !NoneAbove(ChainOf(rows, k), w)
    ensures Settled(p, rows, Put(g, k, entry), w)
  {
  }

  // -------------------------------------------------------------- the sweep

  /** The newest timestamp of a non-empty delta stream bounds every version the tablet holds. */
  lemma StreamBounds(rows: Rows, w: Timestamp, d: seq<Delta>, m: Timestamp)
    requires IsDeltaStream(rows, w, d)
    requires w <= m && forall i :: 0 <= i < |d| ==> d[i].ts <= m
    ensures Drained(rows, m)
  {
    forall k ensures NoneAbove(ChainOf(rows, k), m) {
      var c := ChainOf(rows, k);
      forall i | 0 <= i < |c| ensures c[i].ts <= m {
        if c[i].ts > w {
          AboveHasAll(c, w, i);
          PerKeyFromStream(d, k, c[i]);
        }
      }
    }
  }

  lemma {:induction false} AboveHasAll(c: Chain, ts: Timestamp, i: nat)
    requires i < |c| && c[i].ts > ts
    ensures c[i] in Above(c, ts)
  {
    if i < |c| - 1 {
      AboveHasAll(c[..|c| - 1], ts, i);
    }
  }

  lemma {:induction false} PerKeyFromStream(d: seq<Delta>, k: Key, v: Version)
    ensures v in PerKey(d, k) ==> Delta(v.ts, k, v.value) in d
  {
    if d != [] {
      PerKeyFromStream(d[..|d| - 1], k, v);
    }
  }

  lemma {:induction false} AllAtOrBelow(c: Chain, ts: Timestamp)
    requires NoneAbove(c, ts)
    ensures Visible(c, ts) == if c == [] then None else c[|c| - 1].value
  {
  }

  /** Reading the deltas turns a settled build into one whose sweep will settle it further on. */
  lemma ReadStartsSweep(p: Projection, rows: Rows, g: Generation, w: Timestamp, d: seq<Delta>, m: Timestamp)
    requires AllAscending(rows) && Settled(p, rows, g, w) && IsDeltaStream(rows, w, d)
    requires w <= m && forall i :: 0 <= i < |d| ==> d[i].ts <= m
    ensures Sweeping(p, rows, g, d, m)
  {
  }

  lemma {:induction false} FirstForKey(d: seq<Delta>, k: Key)
    requires d != []
    ensures PerKey(d, k) == (if d[0].key == k then [Version(d[0].ts, d[0].value)] else []) + PerKey(d[1..], k)
  {
    assert d == [d[0]] + d[1..];
    PerKeyAppends([d[0]], d[1..], k);
    assert [d[0]][..0] == [];
  }

  lemma ApplyContinuesSweep(p: Projection, rows: Rows, g: Generation, rest: seq<Delta>, m: Timestamp, g': Generation)
    requires Sweeping(p, rows, g, rest, m) && rest != []
    requires g' == Put(g, rest[0].key, Entry(p, rest[0].key, rest[0].value))
    ensures Sweeping(p, rows, g', rest[1..], m)
  {
    forall k | NoneAbove(ChainOf(rows, k), m) ensures SweepKeyOk(p, rows, g', rest[1..], m, k) {
      assert SweepKeyOk(p, rows, g, rest, m, k);
      FirstForKey(rest, k);
    }
  }

  lemma SweepSettles(p: Projection, rows: Rows, g: Generation, m: Timestamp)
    requires Sweeping(p, rows, g, [], m)
    ensures Settled(p, rows, g, m)
  {
  }

  /** An empty delta read proves the generation equal to a from-scratch build at the watermark. */
  lemma DrainedIsExact(p: Projection, rows: Rows, g: Generation, w: Timestamp)
    requires Settled(p, rows, g, w) && Drained(rows, w)
    ensures g == Projected(p, RowsAt(rows, w))
  {
    forall k ensures Lookup(g, k) == Lookup(Projected(p, RowsAt(rows, w)), k) {
      LookupProjected(p, rows, k, w);
      assert NoneAbove(ChainOf(rows, k), w);
    }
    GenerationsEqual(g, Projected(p, RowsAt(rows, w)));
  }

  lemma EmptyStreamDrains(rows: Rows, w: Timestamp)
    requires IsDeltaStream(rows, w, [])
    ensures Drained(rows, w)
  {
  }
}
