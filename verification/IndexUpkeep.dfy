/**
 * After the build: what dual maintenance keeps true of a public index, exactly when it fails to,
 * and what the validation of a build can and cannot see.
 */
module IndexUpkeep {
  import opened Common
  import opened DdlTypes
  import opened Keyspace
  import opened IndexBuild

  function Latest(c: Chain): Option<Bytes> {
    if c == [] then None else c[|c| - 1].value
  }

  /** The index answers every key as a from-scratch build over the newest rows would. */
  ghost predicate Tracks(p: Projection, rows: Rows, g: Generation) {
    forall k :: Lookup(g, k) == Entry(p, k, Latest(ChainOf(rows, k)))
  }

  /** A settled and drained build, which is what publication hands over, tracks the rows. */
  lemma DrainedTracks(p: Projection, rows: Rows, g: Generation, w: Timestamp)
    requires Drained(rows, w) && g == Projected(p, RowsAt(rows, w))
    ensures Tracks(p, rows, g)
  {
  }

  predicate InOrder(c: Chain, v: Version) {
    c == [] || c[|c| - 1].ts <= v.ts
  }

  lemma LatestAfter(c: Chain, v: Version)
    ensures Latest(Inserted(c, v)) == if InOrder(c, v) then v.value else Latest(c)
  {
  }

  /**
   * One maintained write keeps a tracking index tracking exactly when the raw row it stores is the
   * entry of the row that is now newest.
   */
  lemma WriteTracksIff(p: Projection, rows: Rows, g: Generation, key: Key, v: Version)
    requires Tracks(p, rows, g)
    ensures Tracks(p, Committed(rows, key, v), Put(g, key, v.value))
       <==> v.value == Entry(p, key, if InOrder(ChainOf(rows, key), v) then v.value else Latest(ChainOf(rows, key)))
  {
    var after, g' := Committed(rows, key, v), Put(g, key, v.value);
    LatestAfter(ChainOf(rows, key), v);
    assert Lookup(g', key) == v.value;
    forall k | k != key ensures Lookup(g', k) == Entry(p, k, Latest(ChainOf(after, k))) {
      assert ChainOf(after, k) == ChainOf(rows, k) && Lookup(g', k) == Lookup(g, k);
    }
  }

  function IndexAfter(g: Generation, ws: seq<Write>): Generation
    decreases |ws|
  {
    if ws == [] then g else IndexAfter(Put(g, ws[0].key, ws[0].version.value), ws[1..])
  }

  /** Every write is at least as new as its key's rows when it lands. */
  ghost predicate CommitOrdered(rows: Rows, ws: seq<Write>)
    decreases |ws|
  {
    ws == [] ||
    (InOrder(ChainOf(rows, ws[0].key), ws[0].version)
     && CommitOrdered(Committed(rows, ws[0].key, ws[0].version), ws[1..]))
  }

  /** The index stores the row itself for every row it is given. */
  ghost predicate StoresRows(p: Projection, ws: seq<Write>) {
    forall i :: 0 <= i < |ws| ==> ws[i].version.value == Entry(p, ws[i].key, ws[i].version.value)
  }

  /** Over any run of in-order writes, a public index whose entries are the rows stays exact. */
  lemma {:induction false} PublicIndexTracks(p: Projection, rows: Rows, g: Generation, ws: seq<Write>)
    requires Tracks(p, rows, g) && CommitOrdered(rows, ws) && StoresRows(p, ws)
    ensures Tracks(p, RowsAfter(rows, ws), IndexAfter(g, ws))
    decreases |ws|
  {
    if ws != [] {
      WriteTracksIff(p, rows, g, ws[0].key, ws[0].version);
      PublicIndexTracks(p, Committed(rows, ws[0].key, ws[0].version), Put(g, ws[0].key, ws[0].version.value), ws[1..]);
    }
  }

  /** Two commits to one key whose maintenance runs in the other order: exact only if they wrote alike. */
  lemma CrossedMaintenanceIff(rows: Rows, g: Generation, key: Key, v1: Version, v2: Version)
    requires Tracks((k, r) => r, rows, g) && InOrder(ChainOf(rows, key), v1) && v1.ts <= v2.ts
    ensures Tracks((k, r) => r, Committed(Committed(rows, key, v1), key, v2), Put(Put(g, key, v2.value), key, v1.value))
       <==> v1.value == v2.value
  {
    var p: Projection := (k, r) => r;
    var mid := Committed(rows, key, v1);
    var after, g' := Committed(mid, key, v2), Put(Put(g, key, v2.value), key, v1.value);
    LatestAfter(ChainOf(rows, key), v1);
    LatestAfter(ChainOf(mid, key), v2);
    assert Lookup(g', key) == v1.value && Latest(ChainOf(after, key)) == v2.value;
    assert v2.value == Entry(p, key, v2.value);
    forall k | k != key ensures Lookup(g', k) == Entry(p, k, Latest(ChainOf(after, k))) {
      assert ChainOf(after, k) == ChainOf(rows, k) && Lookup(g', k) == Lookup(g, k);
    }
  }

  // -------------------------------------------------------------- validation

  /**
   * A write that lands after the last delta read of a validation and before its comparison: the
   * compared sets are equal exactly when it stores what the index already held.
   */
  lemma LateWriteVerdict(p: Projection, rows: Rows, g: Generation, w: Timestamp, key: Key, v: Version)
    requires Drained(rows, w) && g == Projected(p, RowsAt(rows, w)) && v.ts > w
    ensures Projected(p, RowsAt(Committed(rows, key, v), w)) == g
    ensures Put(g, key, v.value) == g <==> v.value == Lookup(g, key)
  {
    RacedAgain(rows, g, rows, g, w, key, v, Put(g, key, v.value));
    FrozenRows(rows, Committed(rows, key, v), w, w);
    if v.value == Lookup(g, key) {
      GenerationsEqual(Put(g, key, v.value), g);
    } else {
      assert Lookup(Put(g, key, v.value), key) == v.value;
    }
  }

  /** A write at or below a watermark already swept is never read again; the build is then right only by luck. */
  lemma WriteBelowWatermark(p: Projection, rows: Rows, g: Generation, w: Timestamp, key: Key, v: Version)
    requires Drained(rows, w) && g == Projected(p, RowsAt(rows, w)) && v.ts <= w
    ensures IsDeltaStream(Committed(rows, key, v), w, [])
    ensures g == Projected(p, RowsAt(Committed(rows, key, v), w))
       <==> (InOrder(ChainOf(rows, key), v) ==> Lookup(g, key) == Entry(p, key, v.value))
  {
    var after := Committed(rows, key, v);
    forall k ensures NoneAbove(ChainOf(after, k), w) {
      assert NoneAbove(ChainOf(rows, k), w);
      assert k != key ==> ChainOf(after, k) == ChainOf(rows, k);
      assert forall x :: x in ChainOf(rows, key) ==> x.ts <= w;
    }
    var rebuilt := Projected(p, RowsAt(after, w));
    forall k ensures Lookup(rebuilt, k) == if k == key && InOrder(ChainOf(rows, key), v) then Entry(p, key, v.value) else Lookup(g, k) {
      LookupProjected(p, after, k, w);
      LookupProjected(p, rows, k, w);
      AllAtOrBelow(ChainOf(after, k), w);
      AllAtOrBelow(ChainOf(rows, k), w);
      LatestAfter(ChainOf(rows, key), v);
      assert k != key ==> ChainOf(after, k) == ChainOf(rows, k);
    }
    if InOrder(ChainOf(rows, key), v) ==> Lookup(g, key) == Entry(p, key, v.value) {
      GenerationsEqual(g, rebuilt);
    }
  }

  // ---------------------------------------------------------------- checksum

  /** The bytes a generation's checksum is taken over: keys and entries run together. */
  function ChecksumBytes(entries: seq<(Key, Bytes)>): seq<nat> {
    if entries == [] then [] else entries[0].0.bytes + entries[0].1.bytes + ChecksumBytes(entries[1..])
  }

  /** Two different one-entry generations with one checksum: equal counts and checksums do not imply equal contents. */
  lemma ChecksumCollides()
    ensures var a, b := [(Key([97]), Bytes([98, 99]))], [(Key([97, 98]), Bytes([99]))];
            a != b && |a| == |b| && ChecksumBytes(a) == ChecksumBytes(b)
  {
  }

  ghost predicate FixedWidth(entries: seq<(Key, Bytes)>, keyWidth: nat, entryWidth: nat) {
    forall i :: 0 <= i < |entries| ==> |entries[i].0.bytes| == keyWidth && |entries[i].1.bytes| == entryWidth
  }

  /** Where keys and entries have fixed widths, equal counts and equal checksum bytes mean equal contents. */
  lemma {:induction false} FixedWidthChecksumDecides(a: seq<(Key, Bytes)>, b: seq<(Key, Bytes)>, keyWidth: nat, entryWidth: nat)
    requires FixedWidth(a, keyWidth, entryWidth) && FixedWidth(b, keyWidth, entryWidth) && |a| == |b|
    requires ChecksumBytes(a) == ChecksumBytes(b)
    ensures a == b
  {
    if a != [] {
      var s, t := ChecksumBytes(a), ChecksumBytes(b);
      assert a[0].0.bytes == s[..keyWidth] == t[..keyWidth] == b[0].0.bytes;
      assert a[0].1.bytes == s[keyWidth..keyWidth + entryWidth] == t[keyWidth..keyWidth + entryWidth] == b[0].1.bytes;
      assert ChecksumBytes(a[1..]) == s[keyWidth + entryWidth..] == t[keyWidth + entryWidth..] == ChecksumBytes(b[1..]);
      FixedWidthChecksumDecides(a[1..], b[1..], keyWidth, entryWidth);
      assert a == [a[0]] + a[1..] && b == [b[0]] + b[1..];
    }
  }
}
