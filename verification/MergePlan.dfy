/** Which tablets may merge, the plan of a merge, and the one command that publishes it. */
module MergePlans {
  import opened Common
  import opened DdlTypes
  import opened Keyspace
  import opened Partition
  import opened TabletMeta

  datatype MergeInputs = MergeInputs(
    first: TabletDescriptor,
    second: TabletDescriptor,
    firstSchema: SchemaVersion,
    secondSchema: SchemaVersion,
    activeSchemaJob: Option<nat>,
    firstSize: nat,
    secondSize: nat,
    maxMergedSize: nat)

  datatype MergeRejection =
    | InvalidSourceState(tablet: TabletId)
    | DifferentTables
    | SchemaMismatch
    | NotAdjacent
    | IncompatiblePlacement
    | ConflictingSchemaJob(job: nat)
    | CombinedSizeExceedsThreshold

  datatype Ordered = Lower(first: TabletDescriptor, second: TabletDescriptor) | Rejected(reason: MergeRejection)

  function Nodes(d: TabletDescriptor): multiset<NodeId> {
    multiset(seq(|d.replicas|, i requires 0 <= i < |d.replicas| => d.replicas[i].nodeId))
  }

  const MAX_U64: nat := 0xFFFF_FFFF_FFFF_FFFF

  /** The requirements in the order they are checked; the sources come back lower half first. */
  function ValidatedInputs(m: MergeInputs): Ordered {
    if !m.first.state.Active? then Rejected(InvalidSourceState(m.first.tabletId))
    else if !m.second.state.Active? then Rejected(InvalidSourceState(m.second.tabletId))
    else if m.first.tableId != m.second.tableId then Rejected(DifferentTables)
    else if m.firstSchema != m.secondSchema then Rejected(SchemaMismatch)
    else if !m.first.partition.MeetsStartOf(m.second.partition) && !m.second.partition.MeetsStartOf(m.first.partition) then
      Rejected(NotAdjacent)
    else if Nodes(m.first) != Nodes(m.second) then Rejected(IncompatiblePlacement)
    else if m.activeSchemaJob.Some? then Rejected(ConflictingSchemaJob(m.activeSchemaJob.value))
    else if m.firstSize + m.secondSize > MAX_U64 || m.firstSize + m.secondSize > m.maxMergedSize then
      Rejected(CombinedSizeExceedsThreshold)
    else if m.first.partition.MeetsStartOf(m.second.partition) then Lower(m.first, m.second)
    else Lower(m.second, m.first)
  }

  datatype MergePlan = MergePlan(
    lower: TabletDescriptor,
    upper: TabletDescriptor,
    replacementId: TabletId,
    replacementGroup: RaftGroupId,
    bounds: PartitionBounds,
    replicas: seq<Replica>)
  {
    function MaxGeneration(): nat {
      if lower.generation < upper.generation then upper.generation else lower.generation
    }

    /** The hidden replacement as created: learners at the inception generation. */
    function Replacement(): TabletDescriptor {
      TabletDescriptor(replacementId, lower.tableId, replacementGroup, bounds, WithRole(replicas, false), None,
                       MaxGeneration() + 1, Creating)
    }

    function PublishGeneration(): nat { MaxGeneration() + 2 }

    /** `validate`. */
    predicate Valid() {
      && lower.Valid() && upper.Valid()
      && lower.partition.MeetsStartOf(upper.partition)
      && UnionAdjacent(lower.partition, upper.partition) == Some(bounds)
      && lower.tabletId != upper.tabletId && lower.raftGroupId != upper.raftGroupId
      && replacementId != lower.tabletId && replacementId != upper.tabletId
      && replacementGroup != lower.raftGroupId && replacementGroup != upper.raftGroupId
      && Replacement().Valid()
    }
  }

  function WithRole(replicas: seq<Replica>, voter: bool): (r: seq<Replica>)
    ensures |r| == |replicas|
    ensures forall i :: 0 <= i < |r| ==> r[i] == replicas[i].(voter := voter)
  {
    seq(|replicas|, i requires 0 <= i < |replicas| => replicas[i].(voter := voter))
  }

  /** The planner: validated inputs and a fresh allocation. */
  function Planned(m: MergeInputs, id: TabletId, group: RaftGroupId, replicas: seq<Replica>): Option<MergePlan> {
    if !m.first.Valid() || !m.second.Valid() then None else
    match ValidatedInputs(m)
    case Rejected(_) => None
    case Lower(a, b) =>
      match UnionAdjacent(a.partition, b.partition)
      case None => None
      case Some(bounds) =>
        var plan := MergePlan(a, b, id, group, bounds, replicas);
        if plan.Valid() then Some(plan) else None
  }

  datatype MergePublishCommand = MergePublishCommand(
    lower: TabletDescriptor,
    upper: TabletDescriptor,
    replacement: TabletDescriptor)
  {
    predicate SourceOk(source: TabletDescriptor) {
      source.state.Retiring? && source.generation == replacement.generation
      && source.tableId == replacement.tableId && source.Valid()
    }

    /** `validate`. */
    predicate Valid() {
      && replacement.state.Active? && SourceOk(lower) && SourceOk(upper) && replacement.Valid()
      && UnionAdjacent(lower.partition, upper.partition) == Some(replacement.partition)
      && lower.tabletId != upper.tabletId && replacement.tabletId != lower.tabletId && replacement.tabletId != upper.tabletId
    }
  }

  /**
   * What validation makes of a publication: three different tablets of one table at one generation,
   * the replacement serving and the sources not, each key of the replacement's range from exactly
   * one source and no key from outside it.
   */
  lemma ValidCommandMeans(c: MergePublishCommand, k: Key)
    requires c.Valid()
    ensures c.lower.generation == c.upper.generation == c.replacement.generation
    ensures c.lower.tableId == c.upper.tableId == c.replacement.tableId
    ensures c.replacement.state.IsRoutable() && !c.lower.state.IsRoutable() && !c.upper.state.IsRoutable()
    ensures |{c.lower.tabletId, c.upper.tabletId, c.replacement.tabletId}| == 3
    ensures c.replacement.partition.Contains(k) <==> c.lower.partition.Contains(k) != c.upper.partition.Contains(k)
    ensures !(c.lower.partition.Contains(k) && c.upper.partition.Contains(k))
  {
    var a, b := c.lower.partition, c.upper.partition;
    if a.MeetsStartOf(b) {
      UnionSplits(a, b, k);
    } else {
      UnionSplits(b, a, k);
    }
  }

  function RetiringSource(source: TabletDescriptor, generation: nat): Option<TabletDescriptor> {
    match PublishedTransition(source, Merging)
    case None => None
    case Some(marked) =>
      match PublishedTransition(marked, Retiring)
      case None => None
      case Some(retiring) => Some(retiring.(generation := generation))
  }

  /** The publication of a plan, refused if a source is off the path or the command is malformed. */
  function CommandOf(plan: MergePlan): Option<MergePublishCommand> {
    match (RetiringSource(plan.lower, plan.PublishGeneration()), RetiringSource(plan.upper, plan.PublishGeneration()),
           PublishedTransition(plan.Replacement(), Active))
    case (Some(lower), Some(upper), Some(replacement)) =>
      var c := MergePublishCommand(lower, upper, replacement.(replicas := WithRole(replacement.replicas, true)));
      if c.Valid() then Some(c) else None
    case _ => None
  }

  // ------------------------------------------------------------- properties

  /** For tablets that pass validation equal placement is the same nodes, in whatever order and role. */
  lemma SamePlacementIff(a: TabletDescriptor, b: TabletDescriptor)
    requires a.Valid() && b.Valid()
    ensures Nodes(a) == Nodes(b) <==> Images(a.replicas, NodeOf) == Images(b.replicas, NodeOf)
  {
    OneEach(a);
    OneEach(b);
    if Nodes(a) == Nodes(b) {
      assert forall n :: n in Images(a.replicas, NodeOf) <==> n in Images(b.replicas, NodeOf);
    }
  }

  lemma OneEach(d: TabletDescriptor)
    requires d.Valid()
    ensures forall n :: Nodes(d)[n] == if n in Images(d.replicas, NodeOf) then 1 else 0
  {
    var nodes := seq(|d.replicas|, i requires 0 <= i < |d.replicas| => d.replicas[i].nodeId);
    forall n ensures Nodes(d)[n] == if n in Images(d.replicas, NodeOf) then 1 else 0 {
      OnceAtMost(nodes, n);
      assert n in nodes <==> n in Images(d.replicas, NodeOf) by {
        assert forall i :: 0 <= i < |nodes| ==> nodes[i] == NodeOf(d.replicas[i]);
      }
    }
  }

  lemma {:induction false} OnceAtMost(s: seq<NodeId>, n: NodeId)
    requires forall i, j :: 0 <= i < j < |s| ==> s[i] != s[j]
    ensures multiset(s)[n] == if n in s then 1 else 0
  {
    if s != [] {
      var init, last := s[..|s| - 1], s[|s| - 1];
      OnceAtMost(init, n);
      assert s == init + [last] && last !in init;
    }
  }

  /** An accepted pair is exactly two active adjacent tablets of one table and schema, equally placed, with no job and in size. */
  lemma AcceptedIff(m: MergeInputs)
    ensures ValidatedInputs(m).Lower? <==>
      && m.first.state.Active? && m.second.state.Active? && m.first.tableId == m.second.tableId
      && m.firstSchema == m.secondSchema && Nodes(m.first) == Nodes(m.second) && m.activeSchemaJob.None?
      && (m.first.partition.MeetsStartOf(m.second.partition) || m.second.partition.MeetsStartOf(m.first.partition))
      && m.firstSize + m.secondSize <= m.maxMergedSize && m.firstSize + m.secondSize <= MAX_U64
    ensures ValidatedInputs(m).Lower? ==>
      && {ValidatedInputs(m).first, ValidatedInputs(m).second} == {m.first, m.second}
      && ValidatedInputs(m).first.partition.MeetsStartOf(ValidatedInputs(m).second.partition)
  {
  }

  lemma VoterOfRole(replicas: seq<Replica>)
    requires replicas != []
    ensures WithRole(replicas, true)[0].voter
  {
  }

  lemma RetiringValid(source: TabletDescriptor, generation: nat)
    requires source.Valid() && source.state.Active?
    ensures RetiringSource(source, generation) == Some(source.(state := Retiring, generation := generation))
    ensures source.(state := Retiring, generation := generation).Valid()
  {
  }

  lemma PromotedValid(d: TabletDescriptor, generation: nat)
    requires d.Valid() && d.state.Creating? && d.leaderHint.None?
    ensures d.(state := Active, generation := generation, replicas := WithRole(d.replicas, true)).Valid()
  {
    VoterOfRole(d.replicas);
  }

  /** A valid plan can be published exactly when its sources are active tablets of one table. */
  lemma PublishableIff(plan: MergePlan)
    requires plan.Valid()
    ensures CommandOf(plan).Some? <==> plan.lower.state.Active? && plan.upper.state.Active? && plan.lower.tableId == plan.upper.tableId
  {
    if plan.lower.state.Active? && plan.upper.state.Active? {
      RetiringValid(plan.lower, plan.PublishGeneration());
      RetiringValid(plan.upper, plan.PublishGeneration());
      PromotedValid(plan.Replacement(), plan.PublishGeneration());
    }
  }

  /** Every plan the planner makes can be published. */
  lemma PlannedIsPublishable(m: MergeInputs, id: TabletId, group: RaftGroupId, replicas: seq<Replica>)
    ensures var plan := Planned(m, id, group, replicas);
            plan.Some? ==> plan.value.Valid() && CommandOf(plan.value).Some?
  {
    var plan := Planned(m, id, group, replicas);
    if plan.Some? {
      PublishableIff(plan.value);
    }
  }

  /**
   * The three descriptors of a publication, in the sources' own generations: all at two past the
   * newer source, the replacement created one before that. The sources change state and generation
   * only, the replacement serves the combined range with every learner promoted.
   */
  lemma GenerationsMeet(plan: MergePlan)
    requires plan.Valid() && CommandOf(plan).Some?
    ensures
      var c, p := CommandOf(plan).value, CommandOf(plan).value.replacement.generation;
      && (p == plan.lower.generation + 2 || p == plan.upper.generation + 2)
      && plan.lower.generation + 2 <= p && plan.upper.generation + 2 <= p && plan.Replacement().generation + 1 == p
      && c.lower == plan.lower.(state := Retiring, generation := p)
      && c.upper == plan.upper.(state := Retiring, generation := p)
      && c.replacement.state.Active? && c.replacement.leaderHint.None?
      && c.replacement.tabletId == plan.replacementId && c.replacement.tableId == plan.lower.tableId == plan.upper.tableId
      && c.replacement.raftGroupId == plan.replacementGroup && c.replacement.partition == plan.bounds
      && |c.replacement.replicas| == |plan.replicas|
      && forall i :: 0 <= i < |plan.replicas| ==> c.replacement.replicas[i] == plan.replicas[i].(voter := true)
  {
  }

  /** As created the replacement is hidden: learners only, no leader, in the state no request is routed to. */
  lemma CreatedHidden(plan: MergePlan)
    ensures
      var d := plan.Replacement();
      && d.state.Creating? && !d.state.IsRoutable() && d.leaderHint.None? && |d.replicas| == |plan.replicas|
      && (forall i :: 0 <= i < |plan.replicas| ==> d.replicas[i] == plan.replicas[i].(voter := false))
      && d.tabletId == plan.replacementId && d.raftGroupId == plan.replacementGroup && d.partition == plan.bounds
  {
  }

  // ------------------------------------------------------------- refusals

  /** The requirement a rejection names. */
  predicate Violates(m: MergeInputs, reason: MergeRejection) {
    match reason
    case InvalidSourceState(t) =>
      (t == m.first.tabletId && !m.first.state.Active?) || (t == m.second.tabletId && m.first.state.Active? && !m.second.state.Active?)
    case DifferentTables => m.first.tableId != m.second.tableId
    case SchemaMismatch => m.firstSchema != m.secondSchema
    case NotAdjacent => !m.first.partition.MeetsStartOf(m.second.partition) && !m.second.partition.MeetsStartOf(m.first.partition)
    case IncompatiblePlacement => Nodes(m.first) != Nodes(m.second)
    case ConflictingSchemaJob(j) => m.activeSchemaJob == Some(j)
    case CombinedSizeExceedsThreshold => m.firstSize + m.secondSize > MAX_U64 || m.firstSize + m.secondSize > m.maxMergedSize
  }

  /** The order in which the requirements are looked at. */
  function Precedence(reason: MergeRejection): nat {
    match reason
    case InvalidSourceState(_) => 0 case DifferentTables => 1 case SchemaMismatch => 2 case NotAdjacent => 3
    case IncompatiblePlacement => 4 case ConflictingSchemaJob(_) => 5 case CombinedSizeExceedsThreshold => 6
  }

  /** A rejection names the first requirement the pair violates. */
  lemma RejectedIff(m: MergeInputs, reason: MergeRejection)
    ensures ValidatedInputs(m) == Rejected(reason) <==>
      Violates(m, reason) && forall other :: Violates(m, other) ==> Precedence(reason) <= Precedence(other)
  {
    var first, second := InvalidSourceState(m.first.tabletId), InvalidSourceState(m.second.tabletId);
    assert !m.first.state.Active? ==> Violates(m, first);
    assert m.first.state.Active? && !m.second.state.Active? ==> Violates(m, second);
    assert m.first.tableId != m.second.tableId ==> Violates(m, DifferentTables);
    assert m.firstSchema != m.secondSchema ==> Violates(m, SchemaMismatch);
    assert Violates(m, NotAdjacent) || m.first.partition.MeetsStartOf(m.second.partition) || m.second.partition.MeetsStartOf(m.first.partition);
    assert Nodes(m.first) != Nodes(m.second) ==> Violates(m, IncompatiblePlacement);
    assert m.activeSchemaJob.Some? ==> Violates(m, ConflictingSchemaJob(m.activeSchemaJob.value));
  }

  /** What the allocation for a replacement must bring. */
  predicate Allocates(m: MergeInputs, id: TabletId, group: RaftGroupId, replicas: seq<Replica>) {
    && id != 0 && id != m.first.tabletId && id != m.second.tabletId
    && group != 0 && group != m.first.raftGroupId && group != m.second.raftGroupId
    && replicas != []
    && forall i, j :: 0 <= i < j < |replicas| ==>
         replicas[i].nodeId != replicas[j].nodeId && replicas[i].raftNodeId != replicas[j].raftNodeId
  }

  /** The planner plans exactly the accepted pairs of two tablets with a fresh allocation, and plans them as given. */
  lemma PlannedIff(m: MergeInputs, id: TabletId, group: RaftGroupId, replicas: seq<Replica>)
    ensures Planned(m, id, group, replicas).Some? <==>
      && m.first.Valid() && m.second.Valid() && ValidatedInputs(m).Lower? && Allocates(m, id, group, replicas)
      && m.first.tabletId != m.second.tabletId && m.first.raftGroupId != m.second.raftGroupId
    ensures Planned(m, id, group, replicas).Some? ==>
      var plan := Planned(m, id, group, replicas).value;
      && ValidatedInputs(m) == Lower(plan.lower, plan.upper) && plan.replacementId == id && plan.replacementGroup == group
      && plan.replicas == replicas && UnionAdjacent(m.first.partition, m.second.partition) == Some(plan.bounds)
  {
    if m.first.Valid() && m.second.Valid() && ValidatedInputs(m).Lower? {
      AcceptedIff(m);
      var a, b := ValidatedInputs(m).first, ValidatedInputs(m).second;
      UnionSplits(a.partition, b.partition, Key([]));
      OneWayMeets(a.partition, b.partition);
      var plan := MergePlan(a, b, id, group, PartitionBounds(a.partition.low, b.partition.high), replicas);
      assert plan.Replacement().replicas == WithRole(replicas, false);
      assert Allocates(m, id, group, replicas) ==> plan.Replacement().Valid();
    }
  }

  /** Valid neighbours meet one way round, so the order of the pair does not matter to their union. */
  lemma OneWayMeets(a: PartitionBounds, b: PartitionBounds)
    requires a.Valid() && b.Valid() && a.MeetsStartOf(b)
    ensures !b.MeetsStartOf(a) && UnionAdjacent(b, a) == UnionAdjacent(a, b)
  {
    UnionValid(a, b);
    if b.MeetsStartOf(a) {
      Total(a.low.key, a.high.key);
    }
  }
}
