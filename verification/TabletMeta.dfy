/** Tablet descriptors and the meta plane that publishes them. */
module TabletMeta {
  import opened Common
  import opened DdlTypes
  import opened Keyspace
  import opened Partition

  type NodeId = nat
  type RaftGroupId = nat

  datatype TabletState = Creating | Active | Splitting | Merging | Retiring | Retired {
    predicate CanTransition(next: TabletState) {
      match (this, next)
      case (Creating, Active) => true
      case (Creating, Retired) => true
      case (Active, Splitting) => true
      case (Active, Merging) => true
      case (Active, Retiring) => true
      case (Splitting, Active) => true
      case (Splitting, Retiring) => true
      case (Merging, Active) => true
      case (Merging, Retiring) => true
      case (Retiring, Retired) => true
      case _ => false
    }

    predicate IsRoutable() { Active? || Splitting? || Merging? }
  }

  /** The tablet graph from the other end. */
  function WaysInto(next: TabletState): set<TabletState> {
    match next
    case Creating => {}
    case Active => {Creating, Splitting, Merging}
    case Splitting => {Active}
    case Merging => {Active}
    case Retiring => {Active, Splitting, Merging}
    case Retired => {Creating, Retiring}
  }

  /** The two ends agree, and a tablet is routable exactly while it has yet to be taken out of routing. */
  lemma TabletStateInto(s: TabletState, next: TabletState)
    ensures s.CanTransition(next) <==> s in WaysInto(next)
    ensures s.IsRoutable() <==> s.CanTransition(Retiring)
  {
  }

  datatype Replica = Replica(nodeId: NodeId, raftNodeId: nat, voter: bool)

  datatype TabletDescriptor = TabletDescriptor(
    tabletId: TabletId,
    tableId: TableId,
    raftGroupId: RaftGroupId,
    partition: PartitionBounds,
    replicas: seq<Replica>,
    leaderHint: Option<NodeId>,
    generation: nat,
    state: TabletState)
  {
    /** `validate`. */
    predicate Valid() {
      && tabletId != 0 && raftGroupId != 0 && partition.Valid() && replicas != []
      && (forall i, j :: 0 <= i < j < |replicas| ==>
            replicas[i].nodeId != replicas[j].nodeId && replicas[i].raftNodeId != replicas[j].raftNodeId)
      && (leaderHint.Some? ==> exists i :: 0 <= i < |replicas| && replicas[i].nodeId == leaderHint.value)
      && (!state.Creating? ==> exists i :: 0 <= i < |replicas| && replicas[i].voter)
    }

    predicate Owns(table: TableId, k: Key) {
      tableId == table && state.IsRoutable() && partition.Contains(k)
    }
  }

  function NodeOf(r: Replica): NodeId { r.nodeId }

  function RaftNodeOf(r: Replica): nat { r.raftNodeId }

  /**
   * A descriptor passes validation exactly when its ids are not reserved, its range is valid, there
   * are as many nodes and as many raft nodes as replicas, the leader is one of the nodes, and only a
   * tablet being created may have no voter.
   */
  lemma ValidDescriptorIff(d: TabletDescriptor)
    ensures d.Valid() <==>
      && d.tabletId != 0 && d.raftGroupId != 0 && d.partition.Valid() && d.replicas != []
      && |Images(d.replicas, NodeOf)| == |d.replicas| && |Images(d.replicas, RaftNodeOf)| == |d.replicas|
      && (d.leaderHint.Some? ==> d.leaderHint.value in Images(d.replicas, NodeOf))
      && ((forall r :: r in d.replicas ==> !r.voter) ==> d.state.Creating?)
  {
    DistinctIff(d.replicas, NodeOf);
    DistinctIff(d.replicas, RaftNodeOf);
    assert (forall r :: r in d.replicas ==> !r.voter) <==> !exists i :: 0 <= i < |d.replicas| && d.replicas[i].voter;
    assert forall i :: 0 <= i < |d.replicas| ==> NodeOf(d.replicas[i]) == d.replicas[i].nodeId;
  }

  /** The descriptor in its next state, one generation on; refused off the state graph. */
  function PublishedTransition(d: TabletDescriptor, next: TabletState): Option<TabletDescriptor> {
    if d.state.CanTransition(next) then Some(d.(state := next, generation := d.generation + 1)) else None
  }

  type Layout = map<TabletId, TabletDescriptor>

  datatype MetaResult = Published | Stale | Conflicting | InvalidDescriptor

  /** Last writer wins by generation; an identical republication is a no-op. */
  function AfterSet(tabs: Layout, d: TabletDescriptor): (MetaResult, Layout) {
    if !d.Valid() then (InvalidDescriptor, tabs)
    else if d.tabletId !in tabs || d.generation > tabs[d.tabletId].generation then (Published, tabs[d.tabletId := d])
    else if d == tabs[d.tabletId] then (Published, tabs)
    else if d.generation == tabs[d.tabletId].generation then (Conflicting, tabs)
    else (Stale, tabs)
  }

  function AfterRemove(tabs: Layout, t: TabletId, generation: nat): (MetaResult, Layout) {
    if t !in tabs then (Published, tabs)
    else if generation >= tabs[t].generation then (Published, tabs - {t})
    else (Stale, tabs)
  }

  /** The shared descriptor map. */
  class InMemoryMetaPlane {
    var tablets: Layout

    constructor (tablets: Layout)
      ensures this.tablets == tablets
    {
      this.tablets := tablets;
    }

    method SetTablet(d: TabletDescriptor) returns (r: MetaResult)
      modifies this
      ensures (r, tablets) == AfterSet(old(tablets), d)
    {
      if !d.Valid() {
        return InvalidDescriptor;
      }
      if d.tabletId in tablets {
        var existing := tablets[d.tabletId];
        if d.generation > existing.generation {
          tablets := tablets[d.tabletId := d];
          return Published;
        } else if d.generation == existing.generation {
          return if existing == d then Published else Conflicting;
        } else {
          return Stale;
        }
      }
      tablets := tablets[d.tabletId := d];
      return Published;
    }

    method RemoveTablet(t: TabletId, generation: nat) returns (r: MetaResult)
      modifies this
      ensures (r, tablets) == AfterRemove(old(tablets), t, generation)
    {
      if t in tablets {
        if generation >= tablets[t].generation {
          tablets := tablets - {t};
        } else {
          return Stale;
        }
      }
      return Published;
    }
  }

  /** Generations only rise, and a generation is never reused for different content. */
  lemma GenerationRises(tabs: Layout, d: TabletDescriptor, t: TabletId)
    ensures var tabs' := AfterSet(tabs, d).1;
            t in tabs ==> t in tabs' && (tabs'[t] == tabs[t] || tabs[t].generation < tabs'[t].generation)
  {
  }

  // ------------------------------------------------------------- ownership

  /** Exactly one routable tablet of the table holds the key. */
  ghost predicate OwnedOnce(tabs: Layout, table: TableId, k: Key) {
    exists t :: IsSoleOwner(tabs, table, k, t)
  }

  ghost predicate IsSoleOwner(tabs: Layout, table: TableId, k: Key, t: TabletId) {
    && t in tabs && tabs[t].Owns(table, k)
    && forall q :: q in tabs && tabs[q].Owns(table, k) ==> q == t
  }

  ghost predicate Partitioned(tabs: Layout, table: TableId) {
    forall k :: OwnedOnce(tabs, table, k)
  }
}
