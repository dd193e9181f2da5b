/** The distributed SSI certifier: key vectors, access sets and certification.

The vector-based key sets of the certifier are tied to mathematical sets of
(tablet, key) locations, and the in-place certifier is proved against a
specification stated over those sets. */
module DistSsi {
  import opened Common

  newtype byte = x: int | 0 <= x < 256
  type KeyBytes = seq<byte>
  type TabletId = nat
  type TransactionId = nat

  /** One key of one tablet: the unit of conflict. */
  type Location = (TabletId, KeyBytes)

  /** The keys one transaction touched on one tablet, in first-touch order. */
  datatype TabletKeySet = TabletKeySet(keys: seq<KeyBytes>) {
    ghost function Members(): set<KeyBytes> {
      set k | k in keys
    }

    ghost predicate NoDuplicates() {
      forall i, j :: 0 <= i < j < |keys| ==> keys[i] != keys[j]
    }

    function Insert(key: KeyBytes): (r: TabletKeySet)
      ensures r.Members() == Members() + {key}
      ensures NoDuplicates() ==> r.NoDuplicates()
    {
      if exists i :: 0 <= i < |keys| && keys[i] == key then this else TabletKeySet(keys + [key])
    }

    predicate Intersects(other: TabletKeySet)
      ensures Intersects(other) <==> !(Members() !! other.Members())
    {
      var hit := exists i :: 0 <= i < |keys| && keys[i] in other.keys;
      assert hit ==> !(Members() !! other.Members()) by {
        if hit {
          var i :| 0 <= i < |keys| && keys[i] in other.keys;
          assert keys[i] in Members() && keys[i] in other.Members();
        }
      }
      hit
    }
  }

  /** The locations a per-tablet map of key sets stands for. */
  ghost function Locations(m: map<TabletId, TabletKeySet>): set<Location> {
    set t, k | t in m.Keys && k in m[t].keys :: (t, k)
  }

  /** No tablet's vector holds a key twice. */
  ghost predicate DuplicateFree(m: map<TabletId, TabletKeySet>) {
    forall t :: t in m ==> m[t].NoDuplicates()
  }

  /** The map entry API of the source: insert into the tablet's set, created on demand. */
  function Touch(m: map<TabletId, TabletKeySet>, tablet: TabletId, key: KeyBytes): (r: map<TabletId, TabletKeySet>)
    ensures Locations(r) == Locations(m) + {(tablet, key)}
    ensures DuplicateFree(m) ==> DuplicateFree(r)
  {
    var before := if tablet in m then m[tablet] else TabletKeySet([]);
    var r := m[tablet := before.Insert(key)];
    TouchAddsOneLocation(m, tablet, before, key);
    r
  }

  lemma TouchAddsOneLocation(m: map<TabletId, TabletKeySet>, tablet: TabletId, before: TabletKeySet, key: KeyBytes)
    requires before == if tablet in m then m[tablet] else TabletKeySet([])
    ensures Locations(m[tablet := before.Insert(key)]) == Locations(m) + {(tablet, key)}
    ensures DuplicateFree(m) ==> DuplicateFree(m[tablet := before.Insert(key)])
  {
  }

  /** Whether some tablet's key set in one map meets that tablet's key set in the other. */
  predicate MapsIntersect(a: map<TabletId, TabletKeySet>, b: map<TabletId, TabletKeySet>)
    ensures MapsIntersect(a, b) <==> !(Locations(a) !! Locations(b))
  {
    var hit := exists t :: t in a.Keys && t in b && a[t].Intersects(b[t]);
    assert hit ==> !(Locations(a) !! Locations(b)) by {
      if hit {
        var t :| t in a.Keys && t in b && a[t].Intersects(b[t]);
        var k :| k in a[t].Members() && k in b[t].Members();
        assert (t, k) in Locations(a) && (t, k) in Locations(b);
      }
    }
    assert !hit ==> Locations(a) !! Locations(b) by {
      forall l | l in Locations(a) && l in Locations(b) ensures hit {
        assert l.1 in a[l.0].Members() && l.1 in b[l.0].Members();
        assert a[l.0].Intersects(b[l.0]);
      }
    }
    hit
  }

  /** The multi-tablet access set of one transaction. */
  datatype DistAccessSet = DistAccessSet(
    readSets: map<TabletId, TabletKeySet>,
    writeSets: map<TabletId, TabletKeySet>)
  {
    ghost function Reads(): set<Location> { Locations(readSets) }
    ghost function Writes(): set<Location> { Locations(writeSets) }

    function Read(tablet: TabletId, key: KeyBytes): (r: DistAccessSet)
      ensures r.Reads() == Reads() + {(tablet, key)} && r.Writes() == Writes()
    {
      DistAccessSet(Touch(readSets, tablet, key), writeSets)
    }

    function Write(tablet: TabletId, key: KeyBytes): (r: DistAccessSet)
      ensures r.Reads() == Reads() && r.Writes() == Writes() + {(tablet, key)}
    {
      DistAccessSet(readSets, Touch(writeSets, tablet, key))
    }

    predicate WritesIntersectReads(other: DistAccessSet)
      ensures WritesIntersectReads(other) <==> !(Writes() !! other.Reads())
    {
      MapsIntersect(writeSets, other.readSets)
    }

    predicate WritesIntersectWrites(other: DistAccessSet)
      ensures WritesIntersectWrites(other) <==> !(Writes() !! other.Writes())
    {
      MapsIntersect(writeSets, other.writeSets)
    }
  }

  const NO_ACCESS := DistAccessSet(map[], map[])

  datatype DistCertOutcome = Ok | SerializationFailure

  /** The abstract value of a certifier. */
  datatype Certifier = Certifier(
    inflight: map<TransactionId, DistAccessSet>,
    committed: seq<(TransactionId, DistAccessSet)>,
    window: nat)
  {
    function Inflight(txn: TransactionId): DistAccessSet {
      if txn in inflight then inflight[txn] else NO_ACCESS
    }
  }

  /** The conflict rule, over locations: a committed writer met `mine`'s reads or writes. */
  ghost predicate Conflicts(mine: DistAccessSet, other: DistAccessSet) {
    !(other.Writes() !! mine.Reads() + mine.Writes())
  }

  ghost predicate ConflictsWithWindow(mine: DistAccessSet, committed: seq<(TransactionId, DistAccessSet)>) {
    exists i :: 0 <= i < |committed| && Conflicts(mine, committed[i].1)
  }

  /** What `certify` must do to the abstract certifier. */
  ghost function Certified(c: Certifier, txn: TransactionId): (Certifier, DistCertOutcome) {
    if txn !in c.inflight then
      (c, Ok)
    else
      var rest := c.(inflight := c.inflight - {txn});
      if ConflictsWithWindow(c.inflight[txn], c.committed) then
        (rest, SerializationFailure)
      else
        (rest.(committed := Tail(c.committed + [(txn, c.inflight[txn])], c.window)), Ok)
  }

  ghost function ObservedRead(c: Certifier, txn: TransactionId, l: Location): Certifier {
    c.(inflight := c.inflight[txn := c.Inflight(txn).Read(l.0, l.1)])
  }

  ghost function ObservedWrite(c: Certifier, txn: TransactionId, l: Location): Certifier {
    c.(inflight := c.inflight[txn := c.Inflight(txn).Write(l.0, l.1)])
  }

  class DistSsiCertifier {
    var inflight: map<TransactionId, DistAccessSet>
    var committed: seq<(TransactionId, DistAccessSet)>
    var window: nat

    ghost function View(): Certifier
      reads this
    {
      Certifier(inflight, committed, window)
    }

    constructor (window: nat)
      ensures View() == Certifier(map[], [], if window < 1 then 1 else window)
    {
      this.inflight := map[];
      this.committed := [];
      this.window := if window < 1 then 1 else window;
    }

    method Track(txn: TransactionId, access: DistAccessSet)
      modifies this
      ensures View() == old(View()).(inflight := old(inflight)[txn := access])
    {
      inflight := inflight[txn := access];
    }

    method ObserveRead(txn: TransactionId, tablet: TabletId, key: KeyBytes)
      modifies this
      ensures View() == ObservedRead(old(View()), txn, (tablet, key))
    {
      var access := if txn in inflight then inflight[txn] else NO_ACCESS;
      inflight := inflight[txn := access.Read(tablet, key)];
    }

    method ObserveWrite(txn: TransactionId, tablet: TabletId, key: KeyBytes)
      modifies this
      ensures View() == ObservedWrite(old(View()), txn, (tablet, key))
    {
      var access := if txn in inflight then inflight[txn] else NO_ACCESS;
      inflight := inflight[txn := access.Write(tablet, key)];
    }

    /** Decide on a transaction by what the window holds; one that passes joins it. */
    method Certify(txn: TransactionId) returns (outcome: DistCertOutcome)
      modifies this
      ensures (View(), outcome) == Certified(old(View()), txn)
    {
      if txn !in inflight {
        return Ok;
      }
      var mine := inflight[txn];
      inflight := inflight - {txn};
      var i := 0;
      while i < |committed|
        invariant 0 <= i <= |committed|
        invariant forall j :: 0 <= j < i ==> !Conflicts(mine, committed[j].1)
        invariant View() == old(View()).(inflight := old(inflight) - {txn})
      {
        var other := committed[i].1;
        if mine.WritesIntersectWrites(other) {
          assert Conflicts(mine, committed[i].1);
          return SerializationFailure;
        }
        if other.WritesIntersectReads(mine) {
          assert Conflicts(mine, committed[i].1);
          if mine.WritesIntersectReads(other) {
            return SerializationFailure;
          }
          return SerializationFailure;
        }
        if mine.WritesIntersectReads(other) && other.WritesIntersectReads(mine) {
          assert false;
          return SerializationFailure;
        }
        i := i + 1;
      }
      committed := committed + [(txn, mine)];
      if |committed| > window {
        var drop := |committed| - window;
        committed := committed[drop..];
      }
      return Ok;
    }

    method Abort(txn: TransactionId)
      modifies this
      ensures View() == old(View()).(inflight := old(inflight) - {txn})
    {
      inflight := inflight - {txn};
    }
  }

  /** The verdict of `certify` in one line: an untracked transaction is always Ok, a tracked one
      exactly when no committed writer of the window touched what it read or wrote. */
  lemma CertifyVerdict(c: Certifier, txn: TransactionId)
    ensures Certified(c, txn).1 == Ok <==>
            txn !in c.inflight ||
            forall i :: 0 <= i < |c.committed| ==>
              c.committed[i].1.Writes() !! c.inflight[txn].Reads() + c.inflight[txn].Writes()
  {
  }

  /** A refused certification forgets the transaction, so asking again answers Ok. */
  lemma RefusedThenAskedAgain(c: Certifier, txn: TransactionId)
    requires Certified(c, txn).1 == SerializationFailure
    ensures txn in c.inflight
    ensures Certified(Certified(c, txn).0, txn) == (Certified(c, txn).0, Ok)
  {
  }
}
