/** The rows side of a merge: snapshots, diffs, and replaying a diff over a partly applied one. */
module MergeData {
  import opened Common
  import opened DdlTypes
  import opened Keyspace
  import opened IndexBuild
  import opened Partition

  type Content = map<Key, Bytes>

  datatype Mutation = Upsert(key: Key, value: Bytes) | Delete(key: Key)

  /** Every key's newest row. */
  function Current(rows: Rows): Content {
    map k | k in rows && rows[k] != [] && rows[k][|rows[k]| - 1].value.Some? :: rows[k][|rows[k]| - 1].value.value
  }

  /** The net difference between two contents: one mutation per key that differs. */
  ghost predicate IsDiff(before: Content, now: Content, muts: seq<Mutation>) {
    && (forall i, j :: 0 <= i < j < |muts| ==> muts[i].key != muts[j].key)
    && (forall m :: m in muts ==> Lookup(before, m.key) != Lookup(now, m.key) && MutationOf(m) == Lookup(now, m.key))
    && forall k :: Lookup(before, k) != Lookup(now, k) ==> exists m :: m in muts && m.key == k
  }

  function MutationOf(m: Mutation): Option<Bytes> {
    match m
    case Upsert(_, v) => Some(v)
    case Delete(_) => None
  }

  function Applied(x: Content, muts: seq<Mutation>): Content {
    if muts == [] then x else
    Put(Applied(x, muts[..|muts| - 1]), muts[|muts| - 1].key, MutationOf(muts[|muts| - 1]))
  }

  /** Applying part of a diff moves keys to their present rows and leaves the rest. */
  lemma {:induction false} AppliedAt(x: Content, now: Content, muts: seq<Mutation>, k: Key)
    requires forall m :: m in muts ==> MutationOf(m) == Lookup(now, m.key)
    ensures Lookup(Applied(x, muts), k) == if exists m :: m in muts && m.key == k then Lookup(now, k) else Lookup(x, k)
  {
    if muts != [] {
      var init, last := muts[..|muts| - 1], muts[|muts| - 1];
      AppliedAt(x, now, init, k);
      assert muts == init + [last];
      if last.key == k {
        assert last in muts;
      } else {
        assert (exists m :: m in muts && m.key == k) <==> (exists m :: m in init && m.key == k);
      }
    }
  }

  /** The keys the two contents agree on are already right. */
  ghost predicate Consistent(before: Content, now: Content, x: Content, p: PartitionBounds) {
    forall k :: p.Contains(k) && Lookup(before, k) == Lookup(now, k) ==> Lookup(x, k) == Lookup(now, k)
  }

  ghost predicate Agrees(now: Content, x: Content, p: PartitionBounds) {
    forall k :: p.Contains(k) ==> Lookup(x, k) == Lookup(now, k)
  }

  ghost predicate Within(x: Content, p: PartitionBounds) {
    forall k :: k in x ==> p.Contains(k)
  }

  /**
   * Replaying a whole diff over anything gives the present rows exactly when the keys outside the
   * diff were right to begin with.
   */
  lemma ReplayIff(before: Content, now: Content, x: Content, muts: seq<Mutation>, p: PartitionBounds)
    requires IsDiff(before, now, muts)
    ensures Agrees(now, Applied(x, muts), p) <==> Consistent(before, now, x, p)
  {
    ReplayedIs(before, now, x, muts, p);
    if Agrees(now, Applied(x, muts), p) {
      forall k | p.Contains(k) && Lookup(before, k) == Lookup(now, k) ensures Lookup(x, k) == Lookup(now, k) {
        assert Lookup(Applied(x, muts), k) == Lookup(now, k);
      }
    }
  }

  /** A replayed key holds its present row if that differs from the earlier one, and otherwise what it held. */
  ghost predicate Caught(before: Content, now: Content, x: Content, y: Content, p: PartitionBounds) {
    forall k :: p.Contains(k) ==> Lookup(y, k) == if Lookup(before, k) != Lookup(now, k) then Lookup(now, k) else Lookup(x, k)
  }

  lemma ReplayedIs(before: Content, now: Content, x: Content, muts: seq<Mutation>, p: PartitionBounds)
    requires IsDiff(before, now, muts)
    ensures Caught(before, now, x, Applied(x, muts), p)
  {
    forall k ensures Lookup(Applied(x, muts), k) == if Lookup(before, k) != Lookup(now, k) then Lookup(now, k) else Lookup(x, k) {
      AppliedAt(x, now, muts, k);
    }
  }

  // ------------------------------------------------- replay after replay

  /** Keys no attempt wrote hold their earlier rows. This says nothing of the present rows, so no write disturbs it. */
  ghost predicate Untouched(before: Content, x: Content, p: PartitionBounds, touched: set<Key>) {
    forall k :: p.Contains(k) && k !in touched ==> Lookup(x, k) == Lookup(before, k)
  }

  /** Keys some attempt wrote hold the present rows. */
  ghost predicate Fresh(now: Content, x: Content, p: PartitionBounds, touched: set<Key>) {
    forall k :: p.Contains(k) && k in touched ==> Lookup(x, k) == Lookup(now, k)
  }

  /** One mutation of a diff touches its own key and gives it its present row. */
  lemma MutationKeeps(before: Content, now: Content, y: Content, p: PartitionBounds, touched: set<Key>, m: Mutation)
    requires MutationOf(m) == Lookup(now, m.key)
    ensures
      var y' := Put(y, m.key, MutationOf(m));
      && (forall k :: k != m.key ==> Lookup(y', k) == Lookup(y, k))
      && (Untouched(before, y, p, touched) ==> Untouched(before, y', p, touched + {m.key}))
      && (Fresh(now, y, p, touched) ==> Fresh(now, y', p, touched + {m.key}))
  {
  }

  /** Written keys whose row is back where it was earlier already hold it. */
  ghost predicate Recovered(before: Content, now: Content, x: Content, p: PartitionBounds, touched: set<Key>) {
    forall k :: p.Contains(k) && k in touched && Lookup(before, k) == Lookup(now, k) ==> Lookup(x, k) == Lookup(now, k)
  }

  /** A replay over an earlier attempt ends at the rows it read exactly when nothing stale was left behind. */
  lemma RecoveredIff(before: Content, now: Content, x: Content, y: Content, p: PartitionBounds, touched: set<Key>)
    requires Caught(before, now, x, y, p) && Untouched(before, x, p, touched)
    ensures Agrees(now, y, p) <==> Recovered(before, now, x, p, touched)
  {
    if Agrees(now, y, p) {
      forall k | p.Contains(k) && k in touched && Lookup(before, k) == Lookup(now, k) ensures Lookup(x, k) == Lookup(now, k) {
        assert Lookup(y, k) == Lookup(now, k);
      }
    }
  }

  /** Content inside two disjoint ranges is their rows together, none lost, none twice, none extra, exactly when it is right on each. */
  lemma UnionIff(a: Content, b: Content, x: Content, p: PartitionBounds, q: PartitionBounds)
    requires Within(a, p) && Within(b, q) && forall k :: !(p.Contains(k) && q.Contains(k))
    requires forall k :: k in x ==> p.Contains(k) || q.Contains(k)
    ensures (x == a + b && a.Keys !! b.Keys) <==> Agrees(a, x, p) && Agrees(b, x, q)
  {
    forall k ensures p.Contains(k) ==> Lookup(a + b, k) == Lookup(a, k) {
    }
    forall k ensures q.Contains(k) ==> Lookup(a + b, k) == Lookup(b, k) {
    }
    if Agrees(a, x, p) && Agrees(b, x, q) {
      forall k ensures Lookup(x, k) == Lookup(a + b, k) {
        assert p.Contains(k) ==> Lookup(x, k) == Lookup(a, k);
        assert q.Contains(k) ==> Lookup(x, k) == Lookup(b, k);
      }
      GenerationsEqual(x, a + b);
    }
  }

  // ------------------------------------------------------ reading a diff

  /** Walk the present rows for upserts, then the earlier ones for deletions. */
  method DeltasAfter(before: Content, now: Content) returns (muts: seq<Mutation>)
    ensures IsDiff(before, now, muts)
  {
    muts := [];
    var pending := now.Keys;
    while pending != {}
      invariant pending <= now.Keys
      invariant forall m :: m in muts ==> m.Upsert? && m.key in now && now[m.key] == m.value && Lookup(before, m.key) != Some(m.value)
      invariant forall k :: k in now && k !in pending && Lookup(before, k) != Some(now[k]) ==> Upsert(k, now[k]) in muts
      invariant forall m :: m in muts ==> m.key !in pending
      invariant forall i, j :: 0 <= i < j < |muts| ==> muts[i].key != muts[j].key
    {
      var k :| k in pending;
      if Lookup(before, k) != Some(now[k]) {
        muts := muts + [Upsert(k, now[k])];
      }
      pending := pending - {k};
    }
    var upserts := muts;
    pending := before.Keys;
    while pending != {}
      invariant pending <= before.Keys
      invariant forall m :: m in upserts ==> m in muts
      invariant forall m :: m in muts ==> m in upserts || (m.Delete? && m.key in before && m.key !in now)
      invariant forall k :: k in before && k !in pending && k !in now ==> Delete(k) in muts
      invariant forall m :: m in muts && m.Delete? ==> m.key !in pending
      invariant forall i, j :: 0 <= i < j < |muts| ==> muts[i].key != muts[j].key
    {
      var k :| k in pending;
      if k !in now {
        muts := muts + [Delete(k)];
      }
      pending := pending - {k};
    }
    forall k | Lookup(before, k) != Lookup(now, k) ensures exists m :: m in muts && m.key == k {
      if k in now {
        assert Upsert(k, now[k]) in muts;
      } else {
        assert Delete(k) in muts;
      }
    }
  }
}
