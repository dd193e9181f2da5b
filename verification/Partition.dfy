/** Key ranges of tablets over byte-ordered keys. */
module Partition {
  import opened Common
  import opened DdlTypes
  import opened Keyspace

  // ------------------------------------------------------------ byte order

  predicate Below(a: seq<nat>, b: seq<nat>) {
    if b == [] then false
    else if a == [] then true
    else if a[0] != b[0] then a[0] < b[0]
    else Below(a[1..], b[1..])
  }

  predicate Less(a: Key, b: Key) { Below(a.bytes, b.bytes) }

  lemma {:induction false} BelowTotal(a: seq<nat>, b: seq<nat>)
    ensures Below(a, b) || a == b || Below(b, a)
    ensures !(Below(a, b) && Below(b, a)) && !Below(a, a)
  {
    if a != [] {
      BelowTotal(a[1..], a[1..]);
    }
    if a != [] && b != [] && a[0] == b[0] {
      BelowTotal(a[1..], b[1..]);
      assert a == [a[0]] + a[1..] && b == [b[0]] + b[1..];
    }
  }

  /** The order is the usual one: a proper prefix comes first, and otherwise the first byte that differs decides. */
  lemma {:induction false} BelowIff(a: seq<nat>, b: seq<nat>)
    ensures Below(a, b) <==> exists i: nat :: DecidesBelow(a, b, i)
  {
    if a != [] && b != [] && a[0] == b[0] {
      BelowIff(a[1..], b[1..]);
      if i: nat :| DecidesBelow(a[1..], b[1..], i) {
        assert DecidesBelow(a, b, i + 1) by {
          assert a[..i + 1] == [a[0]] + a[1..][..i] && b[..i + 1] == [b[0]] + b[1..][..i];
        }
      }
      if i: nat :| DecidesBelow(a, b, i) {
        assert i > 0;
        assert DecidesBelow(a[1..], b[1..], i - 1) by {
          assert a[1..][..i - 1] == a[..i][1..] && b[1..][..i - 1] == b[..i][1..];
        }
      }
    } else if Below(a, b) {
      assert DecidesBelow(a, b, 0);
    }
  }

  predicate DecidesBelow(a: seq<nat>, b: seq<nat>, i: nat) {
    i <= |a| && i < |b| && a[..i] == b[..i] && (i == |a| || a[i] < b[i])
  }

  lemma {:induction false} BelowTransitive(a: seq<nat>, b: seq<nat>, c: seq<nat>)
    requires Below(a, b) && Below(b, c)
    ensures Below(a, c)
  {
    if a != [] && a[0] == b[0] == c[0] {
      BelowTransitive(a[1..], b[1..], c[1..]);
    }
  }

  lemma Total(a: Key, b: Key)
    ensures Less(a, b) || a == b || Less(b, a)
    ensures !(Less(a, b) && Less(b, a)) && (a == b ==> !Less(a, b))
  {
    BelowTotal(a.bytes, b.bytes);
  }

  lemma Transitive(a: Key, b: Key, c: Key)
    requires Less(a, b) && Less(b, c)
    ensures Less(a, c)
  {
    BelowTransitive(a.bytes, b.bytes, c.bytes);
  }

  // ---------------------------------------------------------------- bounds

  datatype Bound = Unbounded | Included(key: Key) | Excluded(key: Key)

  datatype PartitionBounds = PartitionBounds(low: Bound, high: Bound) {
    /** `validate`: the low endpoint is below the high one, or both name and include one key. */
    predicate Valid() {
      low.Unbounded? || high.Unbounded? || Less(low.key, high.key)
      || (low.key == high.key && low.Included? && high.Included?)
    }

    predicate Contains(k: Key) {
      AtOrAbove(k, low) && AtOrBelow(k, high)
    }

    /** This range ends exactly where `other` begins. */
    predicate MeetsStartOf(other: PartitionBounds) {
      Meets(high, other.low)
    }
  }

  predicate AtOrAbove(k: Key, low: Bound) {
    match low
    case Unbounded => true
    case Included(b) => !Less(k, b)
    case Excluded(b) => Less(b, k)
  }

  predicate AtOrBelow(k: Key, high: Bound) {
    match high
    case Unbounded => true
    case Included(b) => !Less(b, k)
    case Excluded(b) => Less(k, b)
  }

  /** The same key, included on exactly one side. */
  predicate Meets(high: Bound, low: Bound) {
    match (high, low)
    case (Included(a), Excluded(b)) => a == b
    case (Excluded(a), Included(b)) => a == b
    case _ => false
  }

  /** The combined range of two adjacent ranges, in either order. */
  function UnionAdjacent(a: PartitionBounds, b: PartitionBounds): Option<PartitionBounds> {
    var union :=
      if a.MeetsStartOf(b) then Some(PartitionBounds(a.low, b.high))
      else if b.MeetsStartOf(a) then Some(PartitionBounds(b.low, a.high))
      else None;
    if union.Some? && !union.value.Valid() then None else union
  }

  /** At a meeting point every key is on exactly one side. */
  lemma MeetSplits(k: Key, high: Bound, low: Bound)
    requires Meets(high, low)
    ensures AtOrBelow(k, high) <==> !AtOrAbove(k, low)
  {
  }

  lemma AboveBoth(k: Key, a: PartitionBounds, m: Key)
    requires a.Valid() && !a.high.Unbounded? && a.high.key == m
    requires Less(m, k) || (k == m && a.high.Excluded?)
    ensures AtOrAbove(k, a.low)
  {
    if !a.low.Unbounded? {
      Total(a.low.key, m);
      Total(a.low.key, k);
      Total(m, k);
      if Less(a.low.key, m) && Less(m, k) {
        Transitive(a.low.key, m, k);
      }
    }
  }

  lemma BelowBoth(k: Key, b: PartitionBounds, m: Key)
    requires b.Valid() && !b.low.Unbounded? && b.low.key == m
    requires Less(k, m) || (k == m && b.low.Excluded?)
    ensures AtOrBelow(k, b.high)
  {
    if !b.high.Unbounded? {
      Total(m, b.high.key);
      Total(k, b.high.key);
      Total(k, m);
      if Less(m, b.high.key) && Less(k, m) {
        Transitive(k, m, b.high.key);
      }
    }
  }

  /** Two valid neighbours have a valid union, and each key of it is in one of them and not in both. */
  lemma UnionSplits(a: PartitionBounds, b: PartitionBounds, k: Key)
    requires a.Valid() && b.Valid() && a.MeetsStartOf(b)
    ensures UnionAdjacent(a, b) == Some(PartitionBounds(a.low, b.high))
    ensures PartitionBounds(a.low, b.high).Contains(k) <==> a.Contains(k) || b.Contains(k)
    ensures !(a.Contains(k) && b.Contains(k))
  {
    UnionValid(a, b);
    MeetSplits(k, a.high, b.low);
    var m := a.high.key;
    Total(k, m);
    if AtOrBelow(k, a.high) {
      BelowBoth(k, b, m);
    } else {
      AboveBoth(k, a, m);
    }
  }

  lemma UnionValid(a: PartitionBounds, b: PartitionBounds)
    requires a.Valid() && b.Valid() && a.MeetsStartOf(b)
    ensures PartitionBounds(a.low, b.high).Valid()
  {
    if !a.low.Unbounded? && !b.high.Unbounded? {
      var m := a.high.key;
      if Less(a.low.key, m) && Less(m, b.high.key) {
        Transitive(a.low.key, m, b.high.key);
      }
    }
  }

  // ------------------------------------------------------- emptiness

  lemma {:induction false} NothingBetween(a: seq<nat>, k: seq<nat>)
    requires Below(a, k)
    ensures !Below(k, a + [0])
  {
    if a != [] && a[0] == k[0] {
      NothingBetween(a[1..], k[1..]);
      assert (a + [0])[1..] == a[1..] + [0];
    } else if a == [] {
      assert (a + [0])[1..] == [];
    }
  }

  lemma {:induction false} JustAbove(a: seq<nat>)
    ensures Below(a, a + [0])
  {
    if a != [] {
      JustAbove(a[1..]);
      assert (a + [0])[1..] == a[1..] + [0];
    }
  }

  /** The next key after `k`. */
  function Next(k: Key): Key { Key(k.bytes + [0]) }

  /** The ranges `validate` accepts although no key lies in them. */
  predicate Hollow(p: PartitionBounds) {
    || (p.low.Unbounded? && p.high == Excluded(Key([])))
    || (p.low.Excluded? && p.high == Excluded(Next(p.low.key)))
  }

  lemma HollowIsEmpty(p: PartitionBounds, k: Key)
    requires Hollow(p)
    ensures p.Valid() && !p.Contains(k)
  {
    if p.low.Excluded? {
      JustAbove(p.low.key.bytes);
      if Less(p.low.key, k) {
        NothingBetween(p.low.key.bytes, k.bytes);
      }
    }
  }

  /** A range that passes validation holds a key exactly when it is not one of the hollow ones. */
  lemma ValidIsInhabitedIff(p: PartitionBounds)
    requires p.Valid()
    ensures (exists k :: p.Contains(k)) <==> !Hollow(p)
  {
    if Hollow(p) {
      forall k ensures !p.Contains(k) { HollowIsEmpty(p, k); }
    } else {
      var k := match p.low
        case Unbounded => Key([])
        case Included(b) => b
        case Excluded(b) => Next(b);
      WitnessInside(p, k);
    }
  }

  lemma WitnessInside(p: PartitionBounds, k: Key)
    requires p.Valid() && !Hollow(p)
    requires k == match p.low case Unbounded => Key([]) case Included(b) => b case Excluded(b) => Next(b)
    ensures p.Contains(k)
  {
    Total(k, k);
    if p.low.Excluded? {
      JustAbove(p.low.key.bytes);
    }
    if !p.high.Unbounded? {
      Total(k, p.high.key);
      if p.low.Excluded? {
        NothingBetween(p.low.key.bytes, p.high.key.bytes);
      }
    }
  }
}
