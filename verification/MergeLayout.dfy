/** The metadata side of a merge: which layouts it passes through, and who owns each key in them. */
module MergeLayout {
  import opened Common
  import opened DdlTypes
  import opened Keyspace
  import opened Partition
  import opened TabletMeta
  import opened MergePlans

  function Marked(d: TabletDescriptor): TabletDescriptor { d.(state := Merging, generation := d.generation + 1) }

  function Retiring(d: TabletDescriptor, p: nat): TabletDescriptor { d.(state := TabletState.Retiring, generation := p) }

  function RetiredAt(d: TabletDescriptor, p: nat): TabletDescriptor { d.(state := Retired, generation := p + 1) }

  /** A plan ready to run: valid, its sources active tablets of one table. */
  predicate Runnable(plan: MergePlan) {
    plan.Valid() && plan.lower.state.Active? && plan.upper.state.Active? && plan.lower.tableId == plan.upper.tableId
  }

  /** The layout the merge starts from. */
  ghost predicate StartsAt(start: Layout, plan: MergePlan) {
    && plan.lower.tabletId in start && start[plan.lower.tabletId] == plan.lower
    && plan.upper.tabletId in start && start[plan.upper.tabletId] == plan.upper
    && plan.replacementId !in start
  }

  ghost predicate OthersKept(start: Layout, tabs: Layout, plan: MergePlan) {
    forall t | t != plan.lower.tabletId && t != plan.upper.tabletId && t != plan.replacementId ::
      (t in tabs <==> t in start) && (t in tabs ==> tabs[t] == start[t])
  }

  predicate SourceServes(tabs: Layout, d: TabletDescriptor) {
    d.tabletId in tabs && (tabs[d.tabletId] == d || tabs[d.tabletId] == Marked(d))
  }

  predicate SourceLeaves(tabs: Layout, d: TabletDescriptor, p: nat) {
    d.tabletId in tabs ==> tabs[d.tabletId] == Retiring(d, p) || tabs[d.tabletId] == RetiredAt(d, p)
  }

  /** Not yet published: both sources serve, the replacement is hidden or absent. */
  predicate Before(tabs: Layout, plan: MergePlan) {
    && SourceServes(tabs, plan.lower) && SourceServes(tabs, plan.upper)
    && (plan.replacementId in tabs ==> tabs[plan.replacementId] == plan.Replacement())
  }

  predicate BothMarked(tabs: Layout, plan: MergePlan) {
    && plan.lower.tabletId in tabs && tabs[plan.lower.tabletId] == Marked(plan.lower)
    && plan.upper.tabletId in tabs && tabs[plan.upper.tabletId] == Marked(plan.upper)
  }

  function Promoted(plan: MergePlan): TabletDescriptor {
    plan.Replacement().(state := Active, generation := plan.PublishGeneration(), replicas := WithRole(plan.Replacement().replicas, true))
  }

  /** Published: the replacement serves, both sources are on their way out or gone. */
  predicate After(tabs: Layout, plan: MergePlan) {
    && plan.replacementId in tabs && tabs[plan.replacementId] == Promoted(plan)
    && SourceLeaves(tabs, plan.lower, plan.PublishGeneration()) && SourceLeaves(tabs, plan.upper, plan.PublishGeneration())
  }

  ghost predicate LayoutOk(start: Layout, tabs: Layout, plan: MergePlan) {
    OthersKept(start, tabs, plan) && (Before(tabs, plan) || After(tabs, plan))
  }

  // ------------------------------------------------------------ ownership

  /** In any such layout a key has exactly one owner if it had exactly one to begin with. */
  lemma OwnerFollows(start: Layout, tabs: Layout, plan: MergePlan, k: Key)
    requires Runnable(plan) && StartsAt(start, plan) && LayoutOk(start, tabs, plan)
    requires OwnedOnce(start, plan.lower.tableId, k)
    ensures OwnedOnce(tabs, plan.lower.tableId, k)
  {
    var table := plan.lower.tableId;
    UnionSplits(plan.lower.partition, plan.upper.partition, k);
    var t: TabletId :| IsSoleOwner(start, table, k, t);
    if plan.bounds.Contains(k) {
      var source := if plan.lower.partition.Contains(k) then plan.lower else plan.upper;
      assert start[source.tabletId].Owns(table, k);
      assert t == source.tabletId;
      var owner := if Before(tabs, plan) then t else plan.replacementId;
      SoleInside(start, tabs, plan, k, t, owner);
    } else {
      SoleOutside(start, tabs, plan, k, t);
    }
  }

  lemma SoleInside(start: Layout, tabs: Layout, plan: MergePlan, k: Key, t: TabletId, owner: TabletId)
    requires Runnable(plan) && StartsAt(start, plan) && LayoutOk(start, tabs, plan)
    requires IsSoleOwner(start, plan.lower.tableId, k, t) && plan.bounds.Contains(k)
    requires plan.lower.partition.Contains(k) != plan.upper.partition.Contains(k)
    requires t == if plan.lower.partition.Contains(k) then plan.lower.tabletId else plan.upper.tabletId
    requires owner == if Before(tabs, plan) then t else plan.replacementId
    ensures IsSoleOwner(tabs, plan.lower.tableId, k, owner)
  {
    var table := plan.lower.tableId;
    forall q | q in tabs && q != plan.lower.tabletId && q != plan.upper.tabletId && q != plan.replacementId
      ensures !tabs[q].Owns(table, k)
    {
      assert start[q] == tabs[q];
    }
  }

  lemma SoleOutside(start: Layout, tabs: Layout, plan: MergePlan, k: Key, t: TabletId)
    requires Runnable(plan) && StartsAt(start, plan) && LayoutOk(start, tabs, plan)
    requires IsSoleOwner(start, plan.lower.tableId, k, t)
    requires !plan.bounds.Contains(k) && !plan.lower.partition.Contains(k) && !plan.upper.partition.Contains(k)
    ensures IsSoleOwner(tabs, plan.lower.tableId, k, t)
  {
  }

  /** Every layout a merge passes through divides the table's keys as exactly as the first one did. */
  lemma PartitionKept(start: Layout, tabs: Layout, plan: MergePlan)
    requires Runnable(plan) && StartsAt(start, plan) && LayoutOk(start, tabs, plan)
    requires Partitioned(start, plan.lower.tableId)
    ensures Partitioned(tabs, plan.lower.tableId)
  {
    forall k ensures OwnedOnce(tabs, plan.lower.tableId, k) {
      OwnerFollows(start, tabs, plan, k);
    }
  }

  /**
   * Descriptor-by-descriptor publication: between the first write and the second a key has its one
   * owner exactly when it is outside the merged range, between the second and the third exactly
   * when it is outside the source still serving.
   */
  lemma HalfPublishedOwnersIff(start: Layout, tabs: Layout, plan: MergePlan, k: Key)
    requires Runnable(plan) && StartsAt(start, plan) && OthersKept(start, tabs, plan) && Before(tabs, plan)
    requires OwnedOnce(start, plan.lower.tableId, k)
    ensures var first := AfterSet(tabs, Promoted(plan));
            var second := AfterSet(first.1, Retiring(plan.lower, plan.PublishGeneration()));
            && first.0 == MetaResult.Published && second.0 == MetaResult.Published
            && (OwnedOnce(first.1, plan.lower.tableId, k) <==> !plan.bounds.Contains(k))
            && (OwnedOnce(second.1, plan.lower.tableId, k) <==> !plan.upper.partition.Contains(k))
  {
    PromotedValid(plan.Replacement(), plan.PublishGeneration());
    RetiringValid(plan.lower, plan.PublishGeneration());
    UnionSplits(plan.lower.partition, plan.upper.partition, k);
    var first := tabs[plan.replacementId := Promoted(plan)];
    var second := first[plan.lower.tabletId := Retiring(plan.lower, plan.PublishGeneration())];
    assert AfterSet(tabs, Promoted(plan)) == (MetaResult.Published, first);
    assert AfterSet(first, Retiring(plan.lower, plan.PublishGeneration())) == (MetaResult.Published, second);
    OwnersOf(start, tabs, first, plan, k, true);
    OwnersOf(start, tabs, second, plan, k, false);
  }

  /** Ownership with the replacement serving beside the upper source, and beside the lower one if `lowerServes`. */
  lemma OwnersOf(start: Layout, tabs: Layout, half: Layout, plan: MergePlan, k: Key, lowerServes: bool)
    requires Runnable(plan) && StartsAt(start, plan) && OthersKept(start, tabs, plan) && Before(tabs, plan)
    requires half == tabs[plan.replacementId := Promoted(plan)]
               [plan.lower.tabletId := if lowerServes then tabs[plan.lower.tabletId] else Retiring(plan.lower, plan.PublishGeneration())]
    requires OwnedOnce(start, plan.lower.tableId, k)
    requires plan.bounds.Contains(k) <==> plan.lower.partition.Contains(k) || plan.upper.partition.Contains(k)
    requires !(plan.lower.partition.Contains(k) && plan.upper.partition.Contains(k))
    ensures OwnedOnce(half, plan.lower.tableId, k) <==> !(plan.upper.partition.Contains(k) || (lowerServes && plan.lower.partition.Contains(k)))
  {
    var table := plan.lower.tableId;
    var t: TabletId :| IsSoleOwner(start, table, k, t);
    if plan.upper.partition.Contains(k) {
      assert half[plan.replacementId].Owns(table, k) && half[plan.upper.tabletId].Owns(table, k);
    } else if lowerServes && plan.lower.partition.Contains(k) {
      assert half[plan.replacementId].Owns(table, k) && half[plan.lower.tabletId].Owns(table, k);
    } else if plan.lower.partition.Contains(k) {
      assert start[plan.lower.tabletId].Owns(table, k);
      RestDisowns(start, tabs, half, plan, k, t);
      assert IsSoleOwner(half, table, k, plan.replacementId);
    } else {
      RestSame(start, tabs, half, plan);
      assert IsSoleOwner(half, table, k, t);
    }
  }

  ghost predicate IsThird(plan: MergePlan, q: TabletId) {
    q != plan.lower.tabletId && q != plan.upper.tabletId && q != plan.replacementId
  }

  lemma RestSame(start: Layout, tabs: Layout, half: Layout, plan: MergePlan)
    requires OthersKept(start, tabs, plan)
    requires forall q :: IsThird(plan, q) ==> (q in half <==> q in tabs) && (q in half ==> half[q] == tabs[q])
    ensures forall q :: IsThird(plan, q) ==> (q in half <==> q in start) && (q in half ==> half[q] == start[q])
  {
  }

  lemma RestDisowns(start: Layout, tabs: Layout, half: Layout, plan: MergePlan, k: Key, t: TabletId)
    requires OthersKept(start, tabs, plan) && IsSoleOwner(start, plan.lower.tableId, k, t) && !IsThird(plan, t)
    requires forall q :: IsThird(plan, q) ==> (q in half <==> q in tabs) && (q in half ==> half[q] == tabs[q])
    ensures forall q :: IsThird(plan, q) && q in half ==> !half[q].Owns(plan.lower.tableId, k)
  {
    RestSame(start, tabs, half, plan);
  }

  // ---------------------------------------------------------- meta actions

  lemma MarkKeeps(start: Layout, tabs: Layout, plan: MergePlan, d: TabletDescriptor)
    requires Runnable(plan) && OthersKept(start, tabs, plan) && Before(tabs, plan) && (d == plan.lower || d == plan.upper)
    ensures PublishedTransition(d, Merging) == Some(Marked(d))
    ensures AfterSet(tabs, Marked(d)) == (MetaResult.Published, tabs[d.tabletId := Marked(d)])
    ensures var marked := tabs[d.tabletId := Marked(d)]; OthersKept(start, marked, plan) && Before(marked, plan)
  {
    if tabs[d.tabletId] == Marked(d) {
      assert tabs[d.tabletId := Marked(d)] == tabs;
    }
  }

  lemma CreateKeeps(start: Layout, tabs: Layout, plan: MergePlan)
    requires Runnable(plan) && OthersKept(start, tabs, plan) && Before(tabs, plan)
    ensures AfterSet(tabs, plan.Replacement()) == (MetaResult.Published, tabs[plan.replacementId := plan.Replacement()])
    ensures var created := tabs[plan.replacementId := plan.Replacement()]; OthersKept(start, created, plan) && Before(created, plan)
  {
    if plan.replacementId in tabs {
      assert tabs[plan.replacementId := plan.Replacement()] == tabs;
    }
  }

  /** The publication command applied whole. */
  function AfterPublish(tabs: Layout, plan: MergePlan): Layout {
    var a := AfterSet(tabs, Promoted(plan)).1;
    var b := AfterSet(a, Retiring(plan.lower, plan.PublishGeneration())).1;
    AfterSet(b, Retiring(plan.upper, plan.PublishGeneration())).1
  }

  lemma CommandIs(plan: MergePlan)
    requires Runnable(plan)
    ensures CommandOf(plan) == Some(MergePublishCommand(Retiring(plan.lower, plan.PublishGeneration()),
                                                        Retiring(plan.upper, plan.PublishGeneration()), Promoted(plan)))
  {
    PublishableIff(plan);
    RetiringValid(plan.lower, plan.PublishGeneration());
    RetiringValid(plan.upper, plan.PublishGeneration());
  }

  /** A source that has not been retired yet, published or not. */
  predicate NotRetired(tabs: Layout, d: TabletDescriptor, p: nat) {
    SourceServes(tabs, d) || (d.tabletId in tabs && tabs[d.tabletId] == Retiring(d, p))
  }

  /** A descriptor that is newer, new, or already there is taken. */
  lemma SetAccepted(tabs: Layout, d: TabletDescriptor)
    requires d.Valid()
    requires d.tabletId !in tabs || tabs[d.tabletId].generation < d.generation || tabs[d.tabletId] == d
    ensures AfterSet(tabs, d) == (MetaResult.Published, tabs[d.tabletId := d])
  {
    assert d.tabletId in tabs && tabs[d.tabletId] == d ==> tabs[d.tabletId := d] == tabs;
  }

  /** All three writes land, whichever of them an earlier attempt made. */
  lemma PublishLands(start: Layout, tabs: Layout, plan: MergePlan)
    requires Runnable(plan) && LayoutOk(start, tabs, plan)
    requires NotRetired(tabs, plan.lower, plan.PublishGeneration()) && NotRetired(tabs, plan.upper, plan.PublishGeneration())
    ensures
      var p := plan.PublishGeneration();
      var a := tabs[plan.replacementId := Promoted(plan)];
      var b := a[plan.lower.tabletId := Retiring(plan.lower, p)];
      && AfterSet(tabs, Promoted(plan)) == (MetaResult.Published, a)
      && AfterSet(a, Retiring(plan.lower, p)) == (MetaResult.Published, b)
      && AfterSet(b, Retiring(plan.upper, p)) == (MetaResult.Published, b[plan.upper.tabletId := Retiring(plan.upper, p)])
  {
    var p := plan.PublishGeneration();
    PromotedValid(plan.Replacement(), p);
    RetiringValid(plan.lower, p);
    RetiringValid(plan.upper, p);
    var a := tabs[plan.replacementId := Promoted(plan)];
    SetAccepted(tabs, Promoted(plan));
    SetAccepted(a, Retiring(plan.lower, p));
    SetAccepted(a[plan.lower.tabletId := Retiring(plan.lower, p)], Retiring(plan.upper, p));
  }

  lemma PublishKeeps(start: Layout, tabs: Layout, plan: MergePlan)
    requires Runnable(plan) && LayoutOk(start, tabs, plan)
    requires NotRetired(tabs, plan.lower, plan.PublishGeneration()) && NotRetired(tabs, plan.upper, plan.PublishGeneration())
    ensures var a := AfterSet(tabs, Promoted(plan)); var b := AfterSet(a.1, Retiring(plan.lower, plan.PublishGeneration()));
            var c := AfterSet(b.1, Retiring(plan.upper, plan.PublishGeneration()));
            a.0 == MetaResult.Published && b.0 == MetaResult.Published && c.0 == MetaResult.Published
    ensures OthersKept(start, AfterPublish(tabs, plan), plan) && After(AfterPublish(tabs, plan), plan)
    ensures NotRetired(AfterPublish(tabs, plan), plan.lower, plan.PublishGeneration())
    ensures NotRetired(AfterPublish(tabs, plan), plan.upper, plan.PublishGeneration())
  {
    PublishLands(start, tabs, plan);
  }

  lemma RetireKeeps(start: Layout, tabs: Layout, plan: MergePlan, d: TabletDescriptor)
    requires Runnable(plan) && OthersKept(start, tabs, plan) && After(tabs, plan) && (d == plan.lower || d == plan.upper)
    requires d.tabletId in tabs && tabs[d.tabletId] == Retiring(d, plan.PublishGeneration())
    ensures PublishedTransition(tabs[d.tabletId], Retired) == Some(RetiredAt(d, plan.PublishGeneration()))
    ensures var r := AfterSet(tabs, RetiredAt(d, plan.PublishGeneration()));
            r.0 == MetaResult.Published && OthersKept(start, r.1, plan) && After(r.1, plan)
            && r.1[d.tabletId] == RetiredAt(d, plan.PublishGeneration())
  {
    RetiringValid(d, plan.PublishGeneration());
    assert RetiredAt(d, plan.PublishGeneration()).Valid();
    SetAccepted(tabs, RetiredAt(d, plan.PublishGeneration()));
  }

  lemma RemoveKeeps(start: Layout, tabs: Layout, plan: MergePlan, d: TabletDescriptor)
    requires Runnable(plan) && OthersKept(start, tabs, plan) && After(tabs, plan) && (d == plan.lower || d == plan.upper)
    requires d.tabletId in tabs && tabs[d.tabletId] == RetiredAt(d, plan.PublishGeneration())
    ensures var r := AfterRemove(tabs, d.tabletId, plan.PublishGeneration() + 1);
            r.0 == MetaResult.Published && OthersKept(start, r.1, plan) && After(r.1, plan) && d.tabletId !in r.1
  {
  }
}
