/** Binding a gateway plan's fragments to the tablets that serve them. */
module Gateway {
  import opened Common
  import opened DdlTypes
  import opened Keyspace
  import opened Partition
  import opened TabletMeta

  type Endpoint = string

  datatype TabletLayoutSnapshot = TabletLayoutSnapshot(metadataVersion: MetadataVersion, tablets: Layout)

  /** A fragment names its tablets, or names a table and no tablets. */
  datatype Fragment = Fragment(fragmentId: nat, tableId: Option<TableId>, tabletIds: seq<TabletId>)

  datatype GatewayPlan = GatewayPlan(metadataVersion: MetadataVersion, fragments: seq<Fragment>)

  datatype BoundTabletTarget = BoundTabletTarget(
    tabletId: TabletId,
    raftGroupId: RaftGroupId,
    generation: nat,
    endpoints: seq<Endpoint>)

  datatype BoundFragment = BoundFragment(fragmentId: nat, targets: seq<BoundTabletTarget>)

  datatype GatewayError = StaleMetadata | AdminRefused | UnknownTablet(tablet: TabletId) | NotRoutable(tablet: TabletId)

  datatype Result<T> = Ok(value: T) | Err(error: GatewayError)

  function Endpoints(replicas: seq<Replica>, resolve: NodeId -> Option<Endpoint>): seq<Endpoint> {
    if replicas == [] then [] else
    var rest := Endpoints(replicas[1..], resolve);
    match resolve(replicas[0].nodeId)
    case Some(e) => [e] + rest
    case None => rest
  }

  /** An endpoint is offered exactly when it is where some replica's node resolves to. */
  lemma {:induction false} EndpointsAreReplicas(replicas: seq<Replica>, resolve: NodeId -> Option<Endpoint>, e: Endpoint)
    ensures e in Endpoints(replicas, resolve) <==> exists i :: 0 <= i < |replicas| && resolve(replicas[i].nodeId) == Some(e)
  {
    if replicas != [] {
      EndpointsAreReplicas(replicas[1..], resolve, e);
      if i :| 0 <= i < |replicas| && resolve(replicas[i].nodeId) == Some(e) {
        assert i > 0 ==> replicas[1..][i - 1] == replicas[i];
      }
    }
  }

  /** Endpoints come in replica order, one for each replica whose node resolves. */
  lemma {:induction false} EndpointsInOrder(a: seq<Replica>, b: seq<Replica>, r: Replica, resolve: NodeId -> Option<Endpoint>)
    ensures Endpoints(a + b, resolve) == Endpoints(a, resolve) + Endpoints(b, resolve)
    ensures Endpoints([r], resolve) == if resolve(r.nodeId).Some? then [resolve(r.nodeId).value] else []
  {
    assert [r][1..] == [];
    if a == [] {
      assert a + b == b;
    } else {
      assert (a + b)[1..] == a[1..] + b;
      EndpointsInOrder(a[1..], b, r, resolve);
    }
  }

  function Target(d: TabletDescriptor, resolve: NodeId -> Option<Endpoint>): BoundTabletTarget {
    BoundTabletTarget(d.tabletId, d.raftGroupId, d.generation, Endpoints(d.replicas, resolve))
  }

  function TargetId(x: BoundTabletTarget): nat { x.tabletId }

  ghost predicate InIdOrder(ts: seq<BoundTabletTarget>) { InOrderBy(ts, TargetId) }

  ghost predicate EachOnce(ts: seq<BoundTabletTarget>) { StrictlyBy(ts, TargetId) }

  /** The routable tablets of a table, each once. */
  method RoutableForTable(tablets: Layout, table: TableId) returns (ids: seq<TabletId>)
    ensures forall t :: t in ids <==> t in tablets && tablets[t].tableId == table && tablets[t].state.IsRoutable()
    ensures Distinct(ids)
  {
    ids := [];
    var pending := tablets.Keys;
    while pending != {}
      invariant pending <= tablets.Keys
      invariant forall t :: t in ids <==> t in tablets && t !in pending && tablets[t].tableId == table && tablets[t].state.IsRoutable()
      invariant Distinct(ids)
    {
      var t :| t in pending;
      if tablets[t].tableId == table && tablets[t].state.IsRoutable() {
        ids := ids + [t];
      }
      pending := pending - {t};
    }
  }

  /** A descriptor filed under its own id. */
  ghost predicate Keyed(tablets: Layout) {
    forall t :: t in tablets ==> tablets[t].tabletId == t
  }

  ghost predicate Distinct(ids: seq<TabletId>) {
    forall i, j :: 0 <= i < j < |ids| ==> ids[i] != ids[j]
  }

  /** The tablet of a target serves; the target carries its descriptor's identity and generation. */
  ghost predicate Serves(tablets: Layout, resolve: NodeId -> Option<Endpoint>, x: BoundTabletTarget, id: TabletId) {
    && id in tablets && tablets[id].state.IsRoutable()
    && x.tabletId == tablets[id].tabletId && x.raftGroupId == tablets[id].raftGroupId && x.generation == tablets[id].generation
    && x.endpoints == Endpoints(tablets[id].replicas, resolve)
  }

  /** The error names the first id that cannot be served, and why. */
  ghost predicate FirstBad(tablets: Layout, ids: seq<TabletId>, i: nat, e: GatewayError)
    requires i < |ids|
  {
    && (forall j :: 0 <= j < i ==> ids[j] in tablets && tablets[ids[j]].state.IsRoutable())
    && if ids[i] !in tablets then e == UnknownTablet(ids[i]) else !tablets[ids[i]].state.IsRoutable() && e == NotRoutable(ids[i])
  }

  /** One target per id, in tablet order; the first unknown or unroutable id refuses the fragment. */
  method BindTablets(tablets: Layout, resolve: NodeId -> Option<Endpoint>, ids: seq<TabletId>) returns (r: Result<seq<BoundTabletTarget>>)
    ensures r.Ok? <==> forall i :: 0 <= i < |ids| ==> ids[i] in tablets && tablets[ids[i]].state.IsRoutable()
    ensures r.Ok? ==> InIdOrder(r.value) && |r.value| == |ids|
    ensures r.Ok? ==> forall x :: x in r.value <==> exists i :: 0 <= i < |ids| && Serves(tablets, resolve, x, ids[i])
    ensures r.Ok? && Keyed(tablets) && Distinct(ids) ==> EachOnce(r.value)
    ensures r.Err? ==> exists i :: 0 <= i < |ids| && FirstBad(tablets, ids, i, r.error)
  {
    var targets: seq<BoundTabletTarget> := [];
    for n := 0 to |ids|
      invariant forall i :: 0 <= i < n ==> ids[i] in tablets && tablets[ids[i]].state.IsRoutable()
      invariant InIdOrder(targets) && |targets| == n
      invariant forall x :: x in targets <==> exists i :: 0 <= i < n && Serves(tablets, resolve, x, ids[i])
      invariant Keyed(tablets) && Distinct(ids) ==> EachOnce(targets)
    {
      if ids[n] !in tablets {
        assert FirstBad(tablets, ids, n, UnknownTablet(ids[n]));
        return Err(UnknownTablet(ids[n]));
      }
      if !tablets[ids[n]].state.IsRoutable() {
        assert FirstBad(tablets, ids, n, NotRoutable(ids[n]));
        return Err(NotRoutable(ids[n]));
      }
      var target := Target(tablets[ids[n]], resolve);
      PlacedInOrder(targets, target, TargetId);
      if Keyed(tablets) && Distinct(ids) {
        PlacedStrictly(targets, target, TargetId);
      }
      targets := Placed(targets, target, TargetId);
      assert Serves(tablets, resolve, target, ids[n]);
    }
    r := Ok(targets);
  }

  /** A table-scoped fragment reaches exactly the routable tablets of the table. */
  ghost predicate BoundToTable(tablets: Layout, table: TableId, resolve: NodeId -> Option<Endpoint>, targets: seq<BoundTabletTarget>) {
    forall x :: x in targets <==> exists t :: Serves(tablets, resolve, x, t) && tablets[t].tableId == table
  }

  /** A fragment with explicit tablets reaches exactly those, once for each time they are named. */
  ghost predicate BoundToIds(tablets: Layout, resolve: NodeId -> Option<Endpoint>, ids: seq<TabletId>, targets: seq<BoundTabletTarget>) {
    && |targets| == |ids|
    && forall x :: x in targets <==> exists i :: 0 <= i < |ids| && Serves(tablets, resolve, x, ids[i])
  }

  /** The fragments the layout can serve. */
  ghost predicate Bindable(tablets: Layout, f: Fragment) {
    if f.tabletIds == [] then f.tableId.Some?
    else forall i :: 0 <= i < |f.tabletIds| ==> f.tabletIds[i] in tablets && tablets[f.tabletIds[i]].state.IsRoutable()
  }

  ghost predicate IsBinding(tablets: Layout, resolve: NodeId -> Option<Endpoint>, f: Fragment, b: BoundFragment) {
    && b.fragmentId == f.fragmentId && InIdOrder(b.targets)
    && (f.tabletIds == [] ==>
          && f.tableId.Some? && BoundToTable(tablets, f.tableId.value, resolve, b.targets)
          && (Keyed(tablets) ==> EachOnce(b.targets)))
    && (f.tabletIds != [] ==> BoundToIds(tablets, resolve, f.tabletIds, b.targets))
  }

  method BindFragment(layout: TabletLayoutSnapshot, f: Fragment, resolve: NodeId -> Option<Endpoint>) returns (r: Result<BoundFragment>)
    ensures r.Ok? <==> Bindable(layout.tablets, f)
    ensures r.Ok? ==> IsBinding(layout.tablets, resolve, f, r.value)
    ensures r == Err(AdminRefused) <==> f.tabletIds == [] && f.tableId.None?
    ensures r.Err? && f.tabletIds != [] ==> exists i :: 0 <= i < |f.tabletIds| && FirstBad(layout.tablets, f.tabletIds, i, r.error)
  {
    var ids := f.tabletIds;
    if ids == [] {
      if f.tableId.None? {
        return Err(AdminRefused);
      }
      ids := RoutableForTable(layout.tablets, f.tableId.value);
    }
    var bound := BindTablets(layout.tablets, resolve, ids);
    match bound {
      case Err(e) =>
        return Err(e);
      case Ok(targets) =>
        if f.tabletIds == [] {
          TableBound(layout.tablets, f.tableId.value, resolve, ids, targets);
        }
        r := Ok(BoundFragment(f.fragmentId, targets));
    }
  }

  lemma TableBound(tablets: Layout, table: TableId, resolve: NodeId -> Option<Endpoint>, ids: seq<TabletId>, targets: seq<BoundTabletTarget>)
    requires forall t :: t in ids <==> t in tablets && tablets[t].tableId == table && tablets[t].state.IsRoutable()
    requires forall x :: x in targets <==> exists i :: 0 <= i < |ids| && Serves(tablets, resolve, x, ids[i])
    ensures BoundToTable(tablets, table, resolve, targets)
  {
  }

  /** A plan pinned behind the layout is refused; otherwise its fragments are bound in order. */
  method BindPlan(plan: GatewayPlan, layout: TabletLayoutSnapshot, resolve: NodeId -> Option<Endpoint>) returns (r: Result<seq<BoundFragment>>)
    ensures plan.metadataVersion < layout.metadataVersion <==> r == Err(StaleMetadata)
    ensures r.Ok? <==> layout.metadataVersion <= plan.metadataVersion && forall i :: 0 <= i < |plan.fragments| ==> Bindable(layout.tablets, plan.fragments[i])
    ensures r.Ok? ==> |r.value| == |plan.fragments|
    ensures r.Ok? ==> forall i :: 0 <= i < |r.value| ==> IsBinding(layout.tablets, resolve, plan.fragments[i], r.value[i])
  {
    if plan.metadataVersion < layout.metadataVersion {
      return Err(StaleMetadata);
    }
    var bound: seq<BoundFragment> := [];
    for n := 0 to |plan.fragments|
      invariant |bound| == n
      invariant forall i :: 0 <= i < n ==> Bindable(layout.tablets, plan.fragments[i])
      invariant forall i :: 0 <= i < n ==> IsBinding(layout.tablets, resolve, plan.fragments[i], bound[i])
    {
      var f := BindFragment(layout, plan.fragments[n], resolve);
      match f {
        case Err(e) => return Err(e);
        case Ok(b) => bound := bound + [b];
      }
    }
    r := Ok(bound);
  }

  /** The target's tablet holds the key. */
  ghost predicate Reaches(tablets: Layout, x: BoundTabletTarget, k: Key) {
    x.tabletId in tablets && tablets[x.tabletId].partition.Contains(k)
  }

  /** Over a layout that divides the table, a table-scoped fragment reaches every key through exactly one target. */
  lemma EveryKeyReachedOnce(tablets: Layout, table: TableId, resolve: NodeId -> Option<Endpoint>, targets: seq<BoundTabletTarget>, k: Key)
    returns (n: nat)
    requires Keyed(tablets) && OwnedOnce(tablets, table, k)
    requires BoundToTable(tablets, table, resolve, targets) && EachOnce(targets)
    ensures n < |targets| && Reaches(tablets, targets[n], k)
    ensures forall i :: 0 <= i < |targets| && Reaches(tablets, targets[i], k) ==> i == n
  {
    var t: TabletId :| IsSoleOwner(tablets, table, k, t);
    var x := Target(tablets[t], resolve);
    assert Serves(tablets, resolve, x, t);
    assert x in targets;
    n :| 0 <= n < |targets| && targets[n] == x;
    forall i | 0 <= i < |targets| && Reaches(tablets, targets[i], k) ensures i == n {
      var y := targets[i];
      assert y in targets;
      var q: TabletId :| Serves(tablets, resolve, y, q) && tablets[q].tableId == table;
      assert tablets[q].tabletId == q && tablets[q].Owns(table, k);
      assert q == t && y.tabletId == x.tabletId;
    }
  }
}

/** What a gateway sees while a merge is under way. */
module MergeRouting {
  import opened Common
  import opened DdlTypes
  import opened Keyspace
  import opened TabletMeta
  import opened MergePlans
  import opened MergeLayout
  import opened Gateway

  /**
   * A table-scoped fragment bound in any layout a merge passes through, crashed, resumed or
   * complete, reaches every key of the table through exactly one target.
   */
  lemma MergeKeepsEveryKeyReachable(start: Layout, tabs: Layout, plan: MergePlan,
                                    resolve: NodeId -> Option<Endpoint>, targets: seq<BoundTabletTarget>, k: Key)
    returns (n: nat)
    requires Runnable(plan) && StartsAt(start, plan) && LayoutOk(start, tabs, plan)
    requires Keyed(start) && Partitioned(start, plan.lower.tableId)
    requires BoundToTable(tabs, plan.lower.tableId, resolve, targets) && EachOnce(targets)
    ensures n < |targets| && Reaches(tabs, targets[n], k)
    ensures forall i :: 0 <= i < |targets| && Reaches(tabs, targets[i], k) ==> i == n
  {
    assert OwnedOnce(start, plan.lower.tableId, k);
    OwnerFollows(start, tabs, plan, k);
    StaysKeyed(start, tabs, plan);
    n := EveryKeyReachedOnce(tabs, plan.lower.tableId, resolve, targets, k);
  }

  lemma StaysKeyed(start: Layout, tabs: Layout, plan: MergePlan)
    requires LayoutOk(start, tabs, plan) && Keyed(start)
    ensures Keyed(tabs)
  {
  }
}
