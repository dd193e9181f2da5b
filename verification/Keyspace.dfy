/** The multi-version keyspace of one tablet: per key, committed versions in timestamp order. */
module Keyspace {
  import opened Common
  import opened DdlTypes

  datatype Key = Key(bytes: seq<nat>)
  datatype Bytes = Bytes(bytes: seq<nat>)

  /** A committed put, or a tombstone. */
  datatype Version = Version(ts: Timestamp, value: Option<Bytes>)

  type Chain = seq<Version>
  type Rows = map<Key, Chain>

  datatype Delta = Delta(ts: Timestamp, key: Key, value: Option<Bytes>)

  function VersionTs(v: Version): nat { v.ts }

  ghost predicate Ascending(c: Chain) { InOrderBy(c, VersionTs) }

  ghost predicate AllAscending(rows: Rows) {
    forall k :: k in rows ==> Ascending(rows[k])
  }

  /** Push then stable sort by timestamp, on a chain already in order. */
  function Inserted(c: Chain, v: Version): Chain { Placed(c, v, VersionTs) }

  function ChainOf(rows: Rows, k: Key): Chain {
    if k in rows then rows[k] else []
  }

  function Committed(rows: Rows, k: Key, v: Version): Rows {
    rows[k := Inserted(ChainOf(rows, k), v)]
  }

  // -------------------------------------------------------- commit histories

  datatype Write = Write(key: Key, version: Version)

  function RowsAfter(rows: Rows, ws: seq<Write>): Rows
    decreases |ws|
  {
    if ws == [] then rows else RowsAfter(Committed(rows, ws[0].key, ws[0].version), ws[1..])
  }

  /** Some commits, in some order, lead from one state of the rows to the other. */
  ghost predicate Grew(rows: Rows, rows': Rows) {
    exists ws :: RowsAfter(rows, ws) == rows'
  }

  lemma GrewNot(rows: Rows)
    ensures Grew(rows, rows)
  {
    assert RowsAfter(rows, []) == rows;
  }

  lemma GrewBy(rows: Rows, key: Key, v: Version)
    ensures Grew(rows, Committed(rows, key, v)) && Committed(rows, key, v) != rows
  {
    var w := Write(key, v);
    assert [w][1..] == [];
    assert RowsAfter(rows, [w]) == RowsAfter(Committed(rows, key, v), []);
    assert |ChainOf(Committed(rows, key, v), key)| == |ChainOf(rows, key)| + 1;
  }

  lemma {:induction false} HistoryJoins(rows: Rows, a: seq<Write>, b: seq<Write>)
    ensures RowsAfter(rows, a + b) == RowsAfter(RowsAfter(rows, a), b)
    decreases |a|
  {
    if a == [] {
      assert a + b == b;
    } else {
      assert (a + b)[1..] == a[1..] + b;
      HistoryJoins(Committed(rows, a[0].key, a[0].version), a[1..], b);
    }
  }

  /** Every commit lengthens its key's chain and shortens none. */
  lemma {:induction false} HistoryLengthens(rows: Rows, ws: seq<Write>, k: Key)
    ensures |ChainOf(rows, k)| <= |ChainOf(RowsAfter(rows, ws), k)|
    ensures ws != [] && ws[0].key == k ==> |ChainOf(rows, k)| < |ChainOf(RowsAfter(rows, ws), k)|
    decreases |ws|
  {
    if ws != [] {
      var next := Committed(rows, ws[0].key, ws[0].version);
      assert k != ws[0].key ==> ChainOf(next, k) == ChainOf(rows, k);
      HistoryLengthens(next, ws[1..], k);
    }
  }

  lemma GrewTrans(rows: Rows, mid: Rows, rows': Rows)
    requires Grew(rows, mid) && Grew(mid, rows')
    ensures Grew(rows, rows')
  {
    var a: seq<Write> :| RowsAfter(rows, a) == mid;
    var b: seq<Write> :| RowsAfter(mid, b) == rows';
    HistoryJoins(rows, a, b);
  }

  /** Rows that have moved never come back to a state they have left. */
  lemma GrewBack(rows: Rows, mid: Rows)
    requires Grew(rows, mid) && Grew(mid, rows)
    ensures rows == mid
  {
    var a: seq<Write> :| RowsAfter(rows, a) == mid;
    var b: seq<Write> :| RowsAfter(mid, b) == rows;
    if a != [] {
      HistoryLengthens(rows, a, a[0].key);
      HistoryLengthens(mid, b, a[0].key);
    }
  }

  // ------------------------------------------------------------------- reads

  /** What a read at `ts` finds: the newest version at or below it. */
  function Visible(c: Chain, ts: Timestamp): Option<Bytes> {
    if c == [] then None
    else if c[|c| - 1].ts <= ts then c[|c| - 1].value
    else Visible(c[..|c| - 1], ts)
  }

  function RowsAt(rows: Rows, ts: Timestamp): map<Key, Bytes> {
    map k | k in rows && Visible(rows[k], ts).Some? :: Visible(rows[k], ts).value
  }

  ghost predicate NoneAbove(c: Chain, ts: Timestamp) {
    forall i :: 0 <= i < |c| ==> c[i].ts <= ts
  }

  /** A commit above `ts` leaves every read at or below `ts` alone. */
  lemma {:induction false} InsertAbove(c: Chain, v: Version, ts: Timestamp)
    requires v.ts > ts
    ensures Visible(Inserted(c, v), ts) == Visible(c, ts)
  {
    var r := Inserted(c, v);
    if c == [] || c[|c| - 1].ts <= v.ts {
      assert r[..|r| - 1] == c;
    } else {
      InsertAbove(c[..|c| - 1], v, ts);
      assert r[..|r| - 1] == Inserted(c[..|c| - 1], v);
    }
  }

  /** The versions of a chain above `ts`, in chain order. */
  function Above(c: Chain, ts: Timestamp): (r: Chain)
    ensures |r| <= |c|
    ensures r == [] <==> NoneAbove(c, ts)
    ensures forall i :: 0 <= i < |r| ==> r[i].ts > ts && r[i] in c
  {
    if c == [] then [] else
    var init := Above(c[..|c| - 1], ts);
    if c[|c| - 1].ts > ts then init + [c[|c| - 1]] else init
  }

  // ---------------------------------------------------------- delta streams

  function PerKey(d: seq<Delta>, k: Key): Chain {
    if d == [] then [] else
    var init, last := PerKey(d[..|d| - 1], k), d[|d| - 1];
    if last.key == k then init + [Version(last.ts, last.value)] else init
  }

  /** The catch-up stream: every version above `ts`, oldest first. */
  ghost predicate IsDeltaStream(rows: Rows, ts: Timestamp, d: seq<Delta>) {
    && Ordered(d)
    && forall k :: PerKey(d, k) == Above(ChainOf(rows, k), ts)
  }

  lemma {:induction false} PerKeyAppends(d: seq<Delta>, e: seq<Delta>, k: Key)
    ensures PerKey(d + e, k) == PerKey(d, k) + PerKey(e, k)
    decreases |e|
  {
    if e == [] {
      assert d + e == d;
    } else {
      assert (d + e)[..|d + e| - 1] == d + e[..|e| - 1];
      PerKeyAppends(d, e[..|e| - 1], k);
    }
  }

  function DeltaTs(d: Delta): nat { d.ts }

  ghost predicate Ordered(d: seq<Delta>) { InOrderBy(d, DeltaTs) }

  /** Placing an entry no older than its key's others appends it to that key's entries. */
  lemma {:induction false} PlacedPerKey(d: seq<Delta>, x: Delta, k: Key)
    requires forall i :: 0 <= i < |d| && d[i].key == x.key ==> d[i].ts <= x.ts
    ensures PerKey(Placed(d, x, DeltaTs), k) == if k == x.key then PerKey(d, k) + [Version(x.ts, x.value)] else PerKey(d, k)
  {
    var r := Placed(d, x, DeltaTs);
    if d == [] || d[|d| - 1].ts <= x.ts {
      assert r[..|r| - 1] == d;
    } else {
      PlacedPerKey(d[..|d| - 1], x, k);
      assert r[..|r| - 1] == Placed(d[..|d| - 1], x, DeltaTs);
    }
  }
}
