/**
 * Bootstrap of one node directory: init, join, drain and remove as interleaved file operations
 * under a lock file, with first boot beside them, crashes and stale locks.
 */
module Bootstrap {
  import opened Common
  import opened DdlTypes

  type ClusterId = nat
  type NodeId = nat
  type Pid = nat
  type Trust = string

  datatype Identity = Identity(clusterId: ClusterId, nodeId: NodeId)

  datatype NodeState = Bootstrapping | Up | Draining | Decommissioned | Down

  datatype Member = Member(nodeId: NodeId, state: NodeState)

  datatype ClusterRecord = ClusterRecord(clusterId: ClusterId, members: seq<Member>)

  datatype JoinRecord = JoinRecord(clusterId: ClusterId, endpoints: seq<string>)

  /** The files under `cluster-meta/`; the lock file names the process that created it. */
  datatype Files = Files(
    lock: Option<Pid>,
    identity: Option<Identity>,
    trust: Option<Trust>,
    cluster: Option<ClusterRecord>,
    join: Option<JoinRecord>)

  /** The confirmation a removal must carry: an ideal hash of the two ids. */
  datatype Token = TokenFor(clusterId: ClusterId, nodeId: NodeId) | OtherToken

  /** An attempt, with the identifiers it would mint. */
  datatype Op =
    | Init(address: string, trust: Trust, trustOk: bool, mintCluster: ClusterId, mintNode: NodeId)
    | Join(clusterId: ClusterId, endpoints: seq<string>, trust: Trust, trustOk: bool, mintNode: NodeId)
    | Drain(node: NodeId)
    | Remove(node: NodeId, token: Token)
    | FirstBoot(mintCluster: ClusterId, mintNode: NodeId)

  datatype Failure =
    | InvalidInvite | BootstrapInProgress | AlreadyBootstrapped | ClusterIdentityMismatch
    | NotInitialized | NodeNotFound | InvalidNodeStateTransition | InvalidConfirmationToken

  datatype Outcome = Success | Refused(why: Failure)

  /** The next file operation of an attempt. */
  datatype Pc =
    | Validate
    | Acquire
    | ReadCluster
    | ReadJoin
    | LoadIdentity
    | CreateIdentity(target: ClusterId)
    | CheckIdentity(target: ClusterId)
    | WriteTrust(identity: Identity)
    | WriteRecord(identity: Identity)
    | WriteMembers(loaded: ClusterRecord, updated: ClusterRecord)
    | Release(outcome: Outcome)
    | BootLoad
    | BootCreate
    | Done(result: Outcome)
    | Dead

  datatype Proc = Proc(op: Op, pc: Pc)

  // ---------------------------------------------------------- one operation

  predicate InviteOk(op: Op) {
    match op
    case Init(address, _, trustOk, _, _) => !IsBlank(address) && trustOk
    case Join(cluster, endpoints, _, trustOk, _) =>
      cluster != 0 && endpoints != [] && trustOk && forall i :: 0 <= i < |endpoints| ==> !IsBlank(endpoints[i])
    case _ => true
  }

  predicate SaysSomething(text: string) { exists c :: c in text && !IsWhitespace(c) }

  /** A sound request: an address, or a cluster and endpoints, that say something, beside readable trust. */
  lemma InviteIff(op: Op)
    ensures op.Init? ==> (InviteOk(op) <==> SaysSomething(op.address) && op.trustOk)
    ensures op.Join? ==> (InviteOk(op) <==> op.clusterId != 0 && op.trustOk && op.endpoints != [] && forall e :: e in op.endpoints ==> SaysSomething(e))
    ensures !op.Init? && !op.Join? ==> InviteOk(op)
  {
    if op.Join? {
      forall i | 0 <= i < |op.endpoints| ensures SaysSomething(op.endpoints[i]) <==> !IsBlank(op.endpoints[i]) {
        BlankIff(op.endpoints[i]);
      }
    } else if op.Init? {
      BlankIff(op.address);
    }
  }

  lemma BlankIff(text: string)
    ensures IsBlank(text) <==> !SaysSomething(text)
  {
    if !IsBlank(text) {
      var i :| 0 <= i < |text| && !IsWhitespace(text[i]);
      assert text[i] in text;
    }
  }

  function IndexOf(members: seq<Member>, node: NodeId): Option<nat> {
    if members == [] then None
    else if members[0].nodeId == node then Some(0)
    else match IndexOf(members[1..], node) case None => None case Some(i) => Some(i + 1)
  }

  lemma {:induction false} IndexOfFinds(members: seq<Member>, node: NodeId)
    ensures IndexOf(members, node).Some? ==> IsFirst(members, node, IndexOf(members, node).value)
    ensures IndexOf(members, node).None? ==> forall i :: 0 <= i < |members| ==> members[i].nodeId != node
  {
    if members != [] {
      IndexOfFinds(members[1..], node);
      forall j | 1 <= j < |members| ensures members[j] == members[1..][j - 1] {
      }
    }
  }

  predicate IsFirst(members: seq<Member>, node: NodeId, i: nat) {
    i < |members| && members[i].nodeId == node && forall j :: 0 <= j < i ==> members[j].nodeId != node
  }

  /** What drain and remove make of the membership they read. */
  function Edited(op: Op, r: ClusterRecord): (Outcome, ClusterRecord) {
    if op.Remove? && op.token != TokenFor(r.clusterId, op.node) then (Refused(InvalidConfirmationToken), r)
    else if !op.Drain? && !op.Remove? then (Refused(NodeNotFound), r)
    else
      match IndexOf(r.members, op.node)
      case None => (Refused(NodeNotFound), r)
      case Some(i) =>
        if i >= |r.members| then (Refused(NodeNotFound), r)
        else if op.Drain? && r.members[i].state != Up then (Refused(InvalidNodeStateTransition), r)
        else if op.Remove? && (r.members[i].state.Bootstrapping? || r.members[i].state.Decommissioned?) then
          (Refused(InvalidNodeStateTransition), r)
        else
          (Success, r.(members := r.members[i := r.members[i].(state := if op.Drain? then Draining else Decommissioned)]))
  }

  /** One file operation of process `p`. */
  function Step(f: Files, p: Pid, proc: Proc): (Files, Proc) {
    match proc.pc
    case Validate =>
      if proc.op.FirstBoot? then (f, proc.(pc := BootLoad))
      else (f, proc.(pc := if InviteOk(proc.op) then Acquire else Done(Refused(InvalidInvite))))
    case Acquire =>
      if f.lock.Some? then (f, proc.(pc := Done(Refused(BootstrapInProgress))))
      else (f.(lock := Some(p)), proc.(pc := ReadCluster))
    case ReadCluster =>
      if proc.op.Init? || proc.op.Join? then
        (f, proc.(pc := if f.cluster.Some? then Release(Refused(AlreadyBootstrapped)) else ReadJoin))
      else if f.cluster.None? then (f, proc.(pc := Release(Refused(NotInitialized))))
      else
        var edit := Edited(proc.op, f.cluster.value);
        (f, proc.(pc := if edit.0.Success? then WriteMembers(f.cluster.value, edit.1) else Release(edit.0)))
    case ReadJoin =>
      (f, proc.(pc := if f.join.Some? then Release(Refused(AlreadyBootstrapped))
                      else if proc.op.Join? then CreateIdentity(proc.op.clusterId)
                      else LoadIdentity))
    case LoadIdentity =>
      (f, proc.(pc := if f.identity.Some? then WriteTrust(f.identity.value)
                      else CreateIdentity(if proc.op.Init? then proc.op.mintCluster else 0)))
    case CreateIdentity(target) =>
      if f.identity.Some? then (f, proc.(pc := CheckIdentity(target)))
      else
        var id := Identity(target, if proc.op.Init? || proc.op.Join? then proc.op.mintNode else 0);
        (f.(identity := Some(id)), proc.(pc := WriteTrust(id)))
    case CheckIdentity(target) =>
      (f, proc.(pc := if f.identity.Some? && f.identity.value.clusterId == target then WriteTrust(f.identity.value)
                      else Release(Refused(ClusterIdentityMismatch))))
    case WriteTrust(id) =>
      (f.(trust := if proc.op.Init? || proc.op.Join? then Some(proc.op.trust) else f.trust), proc.(pc := WriteRecord(id)))
    case WriteRecord(id) =>
      if proc.op.Join? then
        (f.(join := Some(JoinRecord(proc.op.clusterId, proc.op.endpoints))), proc.(pc := Release(Success)))
      else
        (f.(cluster := Some(ClusterRecord(id.clusterId, [Member(id.nodeId, Up)]))), proc.(pc := Release(Success)))
    case WriteMembers(_, updated) => (f.(cluster := Some(updated)), proc.(pc := Release(Success)))
    case Release(outcome) => (f.(lock := None), proc.(pc := Done(outcome)))
    case BootLoad => (f, proc.(pc := if f.identity.Some? then Done(Success) else BootCreate))
    case BootCreate =>
      if f.identity.Some? || !proc.op.FirstBoot? then (f, proc.(pc := Done(Success)))
      else (f.(identity := Some(Identity(proc.op.mintCluster, proc.op.mintNode))), proc.(pc := Done(Success)))
    case Done(_) => (f, proc)
    case Dead => (f, proc)
  }

  // ----------------------------------------------------------------- machine

  /** `booter` records which attempt wrote a bootstrap record. */
  datatype State = State(files: Files, procs: map<Pid, Proc>, booter: Option<Pid>)

  datatype Event = Arrive(pid: Pid, op: Op) | Act(pid: Pid) | Crash(pid: Pid) | ClearStaleLock

  predicate Enabled(s: State, e: Event) {
    match e
    case Arrive(p, _) => p !in s.procs
    case Act(p) => p in s.procs
    case Crash(p) => p in s.procs
    // An operator removes a lock whose process is gone.
    case ClearStaleLock => s.files.lock.Some? && s.files.lock.value in s.procs && s.procs[s.files.lock.value].pc.Dead?
  }

  predicate WritesRecord(proc: Proc) { proc.pc.WriteRecord? }

  function Next(s: State, e: Event): State
    requires Enabled(s, e)
  {
    match e
    case Arrive(p, op) => s.(procs := s.procs[p := Proc(op, Validate)])
    case Act(p) =>
      var r := Step(s.files, p, s.procs[p]);
      State(r.0, s.procs[p := r.1], if WritesRecord(s.procs[p]) then Some(p) else s.booter)
    case Crash(p) =>
      if s.procs[p].pc.Done? then s else s.(procs := s.procs[p := s.procs[p].(pc := Dead)])
    case ClearStaleLock => s.(files := s.files.(lock := None))
  }

  const FRESH := State(Files(None, None, None, None, None), map[], None)

  ghost predicate IsRun(states: seq<State>, events: seq<Event>) {
    && |states| == |events| + 1 && states[0] == FRESH
    && forall i :: 0 <= i < |events| ==> Enabled(states[i], events[i]) && states[i + 1] == Next(states[i], events[i])
  }

  // --------------------------------------------------------------- invariant

  predicate Holds(pc: Pc) {
    !pc.Validate? && !pc.Acquire? && !pc.BootLoad? && !pc.BootCreate? && !pc.Done? && !pc.Dead?
  }

  predicate IsBootstrap(op: Op) { op.Init? || op.Join? }

  predicate IsEdit(op: Op) { op.Drain? || op.Remove? }

  /** What an attempt at `pc` knows of the files. */
  predicate ProcOk(f: Files, booter: Option<Pid>, p: Pid, proc: Proc) {
    && (Holds(proc.pc) ==> f.lock == Some(p))
    && (match proc.pc
        case Acquire => !proc.op.FirstBoot?
        case ReadCluster => !proc.op.FirstBoot?
        case BootLoad => proc.op.FirstBoot?
        case BootCreate => proc.op.FirstBoot?
        case ReadJoin => IsBootstrap(proc.op) && f.cluster.None?
        case LoadIdentity => proc.op.Init? && Vacant(f)
        case CreateIdentity(target) => IsBootstrap(proc.op) && Vacant(f) && (proc.op.Join? ==> target == proc.op.clusterId)
        case CheckIdentity(target) => IsBootstrap(proc.op) && Vacant(f) && (proc.op.Join? ==> target == proc.op.clusterId)
        case WriteTrust(id) => IsBootstrap(proc.op) && Vacant(f) && f.identity == Some(id) && (proc.op.Join? ==> id.clusterId == proc.op.clusterId)
        case WriteRecord(id) => IsBootstrap(proc.op) && Vacant(f) && f.identity == Some(id) && (proc.op.Join? ==> id.clusterId == proc.op.clusterId)
        case WriteMembers(loaded, updated) => IsEdit(proc.op) && f.cluster == Some(loaded) && Edited(proc.op, loaded) == (Success, updated)
        case Release(Success) => IsBootstrap(proc.op) ==> booter == Some(p)
        case Done(Success) => IsBootstrap(proc.op) ==> booter == Some(p)
        case _ => true)
  }

  predicate Vacant(f: Files) { f.cluster.None? && f.join.None? }

  predicate FilesOk(f: Files, booter: Option<Pid>) {
    && (f.cluster.None? || f.join.None?)
    && (booter.Some? <==> !Vacant(f))
    && (f.cluster.Some? ==> f.identity.Some? && f.identity.value.clusterId == f.cluster.value.clusterId)
    && (f.join.Some? ==> f.identity.Some? && f.identity.value.clusterId == f.join.value.clusterId)
  }

  ghost predicate Inv(s: State) {
    && FilesOk(s.files, s.booter)
    && forall p :: p in s.procs ==> ProcOk(s.files, s.booter, p, s.procs[p])
  }

  // ------------------------------------------------- what a step can change

  predicate MemberKept(m: Member, m': Member) {
    m'.nodeId == m.nodeId && (m.state.Decommissioned? ==> m'.state.Decommissioned?)
  }

  ghost predicate RecordKept(r: ClusterRecord, r': ClusterRecord) {
    && r'.clusterId == r.clusterId && |r'.members| == |r.members|
    && forall i :: 0 <= i < |r.members| ==> MemberKept(r.members[i], r'.members[i])
  }

  /** Identity, join record and bootstrap are final once they exist; membership only moves forward. */
  ghost predicate Grows(s: State, s': State) {
    && (s.files.identity.Some? ==> s'.files.identity == s.files.identity)
    && (s.files.join.Some? ==> s'.files.join == s.files.join)
    && (s.files.cluster.Some? ==> s'.files.cluster.Some? && RecordKept(s.files.cluster.value, s'.files.cluster.value))
    && (s.booter.Some? ==> s'.booter == s.booter)
    && (forall p :: p in s.procs ==> p in s'.procs && (s.procs[p].pc.Done? ==> s'.procs[p] == s.procs[p]))
  }

  lemma EditKeeps(op: Op, r: ClusterRecord)
    ensures RecordKept(r, Edited(op, r).1)
  {
  }

  lemma ActOnFiles(s: State, p: Pid)
    requires Inv(s) && p in s.procs
    ensures var r := Step(s.files, p, s.procs[p]); var booter := if WritesRecord(s.procs[p]) then Some(p) else s.booter;
            FilesOk(r.0, booter) && ProcOk(r.0, booter, p, r.1)
  {
    assert ProcOk(s.files, s.booter, p, s.procs[p]);
    if s.procs[p].pc.WriteMembers? {
      EditKeeps(s.procs[p].op, s.procs[p].pc.loaded);
    }
  }

  /** The lock is why one attempt's step never disturbs what another has read. */
  lemma ActOnOthers(s: State, p: Pid, q: Pid)
    requires Inv(s) && p in s.procs && q in s.procs && p != q
    ensures ProcOk(Next(s, Act(p)).files, Next(s, Act(p)).booter, q, s.procs[q])
  {
  }

  lemma NextKeeps(s: State, e: Event)
    requires Inv(s) && Enabled(s, e)
    ensures Inv(Next(s, e))
  {
    var s' := Next(s, e);
    if e.Act? {
      ActOnFiles(s, e.pid);
      forall q | q in s'.procs ensures ProcOk(s'.files, s'.booter, q, s'.procs[q]) {
        if q != e.pid {
          ActOnOthers(s, e.pid, q);
        }
      }
    } else if e.ClearStaleLock? {
      forall q | q in s'.procs ensures ProcOk(s'.files, s'.booter, q, s'.procs[q]) {
        assert ProcOk(s.files, s.booter, q, s.procs[q]);
        assert !Holds(s.procs[q].pc);
      }
    } else {
      forall q | q in s'.procs ensures ProcOk(s'.files, s'.booter, q, s'.procs[q]) {
        assert q in s.procs ==> ProcOk(s.files, s.booter, q, s.procs[q]);
      }
    }
  }

  lemma NextGrows(s: State, e: Event)
    requires Inv(s) && Enabled(s, e)
    ensures Grows(s, Next(s, e))
  {
    if e.Act? {
      assert ProcOk(s.files, s.booter, e.pid, s.procs[e.pid]);
      if s.procs[e.pid].pc.WriteMembers? {
        EditKeeps(s.procs[e.pid].op, s.procs[e.pid].pc.loaded);
      }
    }
  }

  lemma {:induction false} RunKeeps(states: seq<State>, events: seq<Event>, i: nat)
    requires IsRun(states, events) && i < |states|
    ensures Inv(states[i])
  {
    if i > 0 {
      RunKeeps(states, events, i - 1);
      assert Enabled(states[i - 1], events[i - 1]) && states[i] == Next(states[i - 1], events[i - 1]);
      NextKeeps(states[i - 1], events[i - 1]);
    }
  }

  lemma RunGrows(states: seq<State>, events: seq<Event>, i: nat, j: nat)
    requires IsRun(states, events) && i <= j < |states|
    ensures Grows(states[i], states[j])
  {
    forall n | 0 <= n < |events| ensures Grows(states[n], states[n + 1]) {
      RunKeeps(states, events, n);
      NextGrows(states[n], events[n]);
    }
    ChainGrows(states, i, j);
  }

  lemma {:induction false} ChainGrows(states: seq<State>, i: nat, j: nat)
    requires i <= j < |states| && forall n :: 0 <= n < |states| - 1 ==> Grows(states[n], states[n + 1])
    ensures Grows(states[i], states[j])
    decreases j
  {
    if i == j {
      GrowsSame(states[i]);
    } else {
      ChainGrows(states, i, j - 1);
      assert Grows(states[j - 1], states[j - 1 + 1]);
      GrowsTrans(states[i], states[j - 1], states[j]);
    }
  }

  lemma GrowsSame(s: State)
    ensures Grows(s, s)
  {
  }

  lemma GrowsTrans(s: State, mid: State, s': State)
    requires Grows(s, mid) && Grows(mid, s')
    ensures Grows(s, s')
  {
  }

  // ---------------------------------------------------------------- theorems

  predicate Succeeded(s: State, p: Pid) {
    p in s.procs && IsBootstrap(s.procs[p].op) && s.procs[p].pc == Done(Success)
  }

  /** Over a whole run at most one init or join ever succeeds. */
  lemma OneBootstrap(states: seq<State>, events: seq<Event>, i: nat, p: Pid, j: nat, q: Pid)
    requires IsRun(states, events) && i <= j < |states| && Succeeded(states[i], p) && Succeeded(states[j], q)
    ensures p == q
  {
    RunKeeps(states, events, i);
    RunKeeps(states, events, j);
    RunGrows(states, events, i, j);
    assert ProcOk(states[i].files, states[i].booter, p, states[i].procs[p]);
    assert ProcOk(states[j].files, states[j].booter, q, states[j].procs[q]);
  }

  /** In every reachable state the two records exclude each other and name the identity's cluster. */
  lemma RecordsAgree(states: seq<State>, events: seq<Event>, i: nat)
    requires IsRun(states, events) && i < |states|
    ensures var f := states[i].files;
            && (f.cluster.None? || f.join.None?)
            && (f.cluster.Some? ==> f.identity.Some? && f.identity.value.clusterId == f.cluster.value.clusterId)
            && (f.join.Some? ==> f.identity.Some? && f.identity.value.clusterId == f.join.value.clusterId)
  {
    RunKeeps(states, events, i);
  }

  /** Once decommissioned, a member stays so; a directory never changes cluster. */
  lemma DecommissionedIsFinal(states: seq<State>, events: seq<Event>, i: nat, j: nat, m: nat)
    requires IsRun(states, events) && i <= j < |states| && states[i].files.cluster.Some?
    requires m < |states[i].files.cluster.value.members| && states[i].files.cluster.value.members[m].state.Decommissioned?
    ensures states[j].files.cluster.Some? && states[j].files.cluster.value.clusterId == states[i].files.cluster.value.clusterId
    ensures m < |states[j].files.cluster.value.members|
    ensures states[j].files.cluster.value.members[m] == states[i].files.cluster.value.members[m]
  {
    RunGrows(states, events, i, j);
    assert MemberKept(states[i].files.cluster.value.members[m], states[j].files.cluster.value.members[m]);
  }

  function Acts(s: State, p: Pid, n: nat): State
    requires p in s.procs
    decreases n
  {
    if n == 0 then s else Acts(Next(s, Act(p)), p, n - 1)
  }

  /**
   * Why the lock of a live process must not be cleared: with the lock of an init about to write its
   * record removed, a join of the same cluster runs through beside it, and both records exist.
   */
  lemma ClearingLiveLockBreaksExclusion(s: State, p: Pid, q: Pid, id: Identity, join: Op)
    requires Inv(s) && p in s.procs && s.procs[p].op.Init? && s.procs[p].pc == WriteRecord(id)
    requires q !in s.procs && join.Join? && InviteOk(join) && join.clusterId == id.clusterId
    ensures var cleared := s.(files := s.files.(lock := None));
            var joined := Acts(Next(cleared, Arrive(q, join)), q, 8);
            var both := Next(joined, Act(p)).files;
            both.cluster.Some? && both.join.Some?
  {
    assert ProcOk(s.files, s.booter, p, s.procs[p]);
    var s0 := Next(s.(files := s.files.(lock := None)), Arrive(q, join));
    var s1 := Next(s0, Act(q));
    var s2 := Next(s1, Act(q));
    assert s2.procs[q].pc == ReadCluster;
    var s3 := Next(s2, Act(q));
    var s4 := Next(s3, Act(q));
    assert s4.procs[q].pc == CreateIdentity(id.clusterId);
    var s5 := Next(s4, Act(q));
    var s6 := Next(s5, Act(q));
    assert s6.procs[q].pc == WriteTrust(id);
    var s7 := Next(s6, Act(q));
    var s8 := Next(s7, Act(q));
    assert s8.files.join.Some? && s8.procs[p] == s.procs[p];
    assert Acts(s0, q, 8) == Acts(s4, q, 4) == s8;
  }
}

/** The bootstrap commands as one process runs them, start to finish, on its node directory. */
module BootstrapCommands {
  import opened Common
  import opened DdlTypes
  import opened Bootstrap

  function Remaining(pc: Pc): nat {
    match pc
    case Validate => 10
    case Acquire => 9
    case ReadCluster => 8
    case ReadJoin => 7
    case LoadIdentity => 6
    case CreateIdentity(_) => 5
    case CheckIdentity(_) => 4
    case WriteTrust(_) => 3
    case WriteRecord(_) => 2
    case WriteMembers(_, _) => 2
    case Release(_) => 1
    case BootLoad => 2
    case BootCreate => 1
    case Done(_) => 0
    case Dead => 0
  }

  /** The attempt's file operations one after another with nothing between them. */
  function Alone(f: Files, p: Pid, proc: Proc): (Files, Pc)
    decreases Remaining(proc.pc)
  {
    if Remaining(proc.pc) == 0 then (f, proc.pc) else
    var r := Step(f, p, proc);
    Alone(r.0, p, r.1)
  }

  lemma Ends(f: Files, p: Pid, op: Op, out: Outcome)
    ensures Alone(f, p, Proc(op, Done(out))) == (f, Done(out))
    ensures Alone(f, p, Proc(op, Release(out))) == (f.(lock := None), Done(out))
    ensures f.lock.Some? ==> Alone(f, p, Proc(op, Acquire)) == (f, Done(Refused(BootstrapInProgress)))
  {
  }

  class NodeDirectory {
    var files: Files

    constructor (files: Files)
      ensures this.files == files
    {
      this.files := files;
    }

    /** Create the cluster on this node. */
    method ClusterInit(p: Pid, op: Op) returns (r: Outcome)
      requires op.Init?
      modifies this
      ensures (files, Done(r)) == Alone(old(files), p, Proc(op, Validate))
    {
      if IsBlank(op.address) || !op.trustOk {
        return Refused(InvalidInvite);
      }
      assert Alone(files, p, Proc(op, Validate)) == Alone(files, p, Proc(op, Acquire));
      Ends(files, p, op, Success);
      if files.lock.Some? {
        return Refused(BootstrapInProgress);
      }
      files := files.(lock := Some(p));
      assert Alone(old(files), p, Proc(op, Validate)) == Alone(files, p, Proc(op, ReadCluster));
      if files.cluster.Some? || files.join.Some? {
        assert Alone(files, p, Proc(op, ReadCluster)) == Alone(files, p, Proc(op, Release(Refused(AlreadyBootstrapped))));
        Ends(files, p, op, Refused(AlreadyBootstrapped));
        files := files.(lock := None);
        return Refused(AlreadyBootstrapped);
      }
      assert Alone(files, p, Proc(op, ReadCluster)) == Alone(files, p, Proc(op, LoadIdentity));
      ghost var locked := files;
      var identity;
      if files.identity.Some? {
        identity := files.identity.value;
      } else {
        identity := Identity(op.mintCluster, op.mintNode);
        files := files.(identity := Some(identity));
      }
      assert Alone(locked, p, Proc(op, LoadIdentity)) == Alone(files, p, Proc(op, WriteTrust(identity)));
      ghost var known := files;
      files := files.(trust := Some(op.trust));
      files := files.(cluster := Some(ClusterRecord(identity.clusterId, [Member(identity.nodeId, Up)])));
      assert Alone(known, p, Proc(op, WriteTrust(identity))) == Alone(files, p, Proc(op, Release(Success)));
      Ends(files, p, op, Success);
      files := files.(lock := None);
      r := Success;
    }

    /** Join by invite: the files of one node, in the order the command writes them. */
    method ClusterJoin(p: Pid, op: Op) returns (r: Outcome)
      requires op.Join?
      modifies this
      ensures (files, Done(r)) == Alone(old(files), p, Proc(op, Validate))
    {
      if !InviteOk(op) {
        return Refused(InvalidInvite);
      }
      assert Alone(files, p, Proc(op, Validate)) == Alone(files, p, Proc(op, Acquire));
      Ends(files, p, op, Success);
      if files.lock.Some? {
        return Refused(BootstrapInProgress);
      }
      files := files.(lock := Some(p));
      assert Alone(old(files), p, Proc(op, Validate)) == Alone(files, p, Proc(op, ReadCluster));
      if files.cluster.Some? || files.join.Some? {
        assert Alone(files, p, Proc(op, ReadCluster)) == Alone(files, p, Proc(op, Release(Refused(AlreadyBootstrapped))));
        Ends(files, p, op, Refused(AlreadyBootstrapped));
        files := files.(lock := None);
        return Refused(AlreadyBootstrapped);
      }
      assert Alone(files, p, Proc(op, ReadCluster)) == Alone(files, p, Proc(op, CreateIdentity(op.clusterId)));
      ghost var locked := files;
      var identity;
      if files.identity.Some? {
        if files.identity.value.clusterId != op.clusterId {
          assert Alone(files, p, Proc(op, CreateIdentity(op.clusterId))) == Alone(files, p, Proc(op, Release(Refused(ClusterIdentityMismatch))));
          Ends(files, p, op, Refused(ClusterIdentityMismatch));
          files := files.(lock := None);
          return Refused(ClusterIdentityMismatch);
        }
        identity := files.identity.value;
      } else {
        identity := Identity(op.clusterId, op.mintNode);
        files := files.(identity := Some(identity));
      }
      assert Alone(locked, p, Proc(op, CreateIdentity(op.clusterId))) == Alone(files, p, Proc(op, WriteTrust(identity)));
      ghost var known := files;
      files := files.(trust := Some(op.trust));
      files := files.(join := Some(JoinRecord(op.clusterId, op.endpoints)));
      assert Alone(known, p, Proc(op, WriteTrust(identity))) == Alone(files, p, Proc(op, Release(Success)));
      Ends(files, p, op, Success);
      files := files.(lock := None);
      r := Success;
    }

    /** The first member with the id. */
    method FindMember(members: seq<Member>, node: NodeId) returns (found: Option<nat>)
      ensures found == IndexOf(members, node)
      ensures found.Some? ==> found.value < |members| && members[found.value].nodeId == node
    {
      IndexOfFinds(members, node);
      for i := 0 to |members|
        invariant IndexOf(members, node) == Shifted(IndexOf(members[i..], node), i)
      {
        if members[i].nodeId == node {
          return Some(i);
        }
        assert members[i..][1..] == members[i + 1..];
      }
      found := None;
    }

    /** Drain or remove one member: read, edit, write back. */
    method EditMember(p: Pid, op: Op) returns (r: Outcome)
      requires IsEdit(op)
      modifies this
      ensures (files, Done(r)) == Alone(old(files), p, Proc(op, Validate))
    {
      assert Alone(files, p, Proc(op, Validate)) == Alone(files, p, Proc(op, Acquire));
      Ends(files, p, op, Success);
      if files.lock.Some? {
        return Refused(BootstrapInProgress);
      }
      files := files.(lock := Some(p));
      assert Alone(old(files), p, Proc(op, Validate)) == Alone(files, p, Proc(op, ReadCluster));
      if files.cluster.None? {
        assert Alone(files, p, Proc(op, ReadCluster)) == Alone(files, p, Proc(op, Release(Refused(NotInitialized))));
        Ends(files, p, op, Refused(NotInitialized));
        files := files.(lock := None);
        return Refused(NotInitialized);
      }
      var record := files.cluster.value;
      ghost var locked := files;
      var updated;
      r, updated := Edit(op, record);
      if r.Success? {
        files := files.(cluster := Some(updated));
      }
      assert Alone(locked, p, Proc(op, ReadCluster)) == Alone(files, p, Proc(op, Release(r)));
      Ends(files, p, op, r);
      files := files.(lock := None);
    }

    method Edit(op: Op, record: ClusterRecord) returns (r: Outcome, updated: ClusterRecord)
      requires IsEdit(op)
      ensures (r, updated) == Edited(op, record)
    {
      updated := record;
      if op.Remove? && op.token != TokenFor(record.clusterId, op.node) {
        return Refused(InvalidConfirmationToken), updated;
      }
      var found := FindMember(record.members, op.node);
      if found.None? {
        return Refused(NodeNotFound), updated;
      }
      var member := record.members[found.value];
      var allowed := if op.Drain? then member.state == Up else member.state == Up || member.state == Draining || member.state == Down;
      if !allowed {
        return Refused(InvalidNodeStateTransition), updated;
      }
      var moved := member.(state := if op.Drain? then Draining else Decommissioned);
      updated := record.(members := record.members[found.value := moved]);
      r := Success;
    }
  }

  function Shifted(found: Option<nat>, offset: nat): Option<nat> {
    match found case None => None case Some(i) => Some(i + offset)
  }

  /**
   * An undisturbed init: it succeeds exactly when its request is sound, nobody holds the lock and
   * nothing was bootstrapped; then trust, identity and a record of one member stand, with the
   * identity the node had or the minted one. Refused, it leaves every file as it was.
   */
  lemma InitAloneIff(f: Files, p: Pid, op: Op)
    requires op.Init?
    ensures
      var (f', pc) := Alone(f, p, Proc(op, Validate));
      var id := if f.identity.Some? then f.identity.value else Identity(op.mintCluster, op.mintNode);
      && (pc == Done(Success) <==> InviteOk(op) && f.lock.None? && f.cluster.None? && f.join.None?)
      && f' == (if pc == Done(Success) then Files(None, Some(id), Some(op.trust), Some(ClusterRecord(id.clusterId, [Member(id.nodeId, Up)])), None) else f)
      && (pc != Done(Success) ==> pc == Done(Refused(
           if !InviteOk(op) then InvalidInvite else if f.lock.Some? then BootstrapInProgress else AlreadyBootstrapped)))
  {
    var locked := f.(lock := Some(p));
    Ends(f, p, op, Refused(InvalidInvite));
    assert InviteOk(op) ==> Alone(f, p, Proc(op, Validate)) == Alone(f, p, Proc(op, Acquire));
    if InviteOk(op) && f.lock.None? {
      assert Alone(f, p, Proc(op, Acquire)) == Alone(locked, p, Proc(op, ReadCluster));
      if Vacant(f) {
        assert Alone(locked, p, Proc(op, ReadCluster)) == Alone(locked, p, Proc(op, LoadIdentity));
        InitFromIdentity(locked, p, op);
      } else {
        Ends(locked, p, op, Refused(AlreadyBootstrapped));
        assert Alone(locked, p, Proc(op, ReadCluster)) == Alone(locked, p, Proc(op, Release(Refused(AlreadyBootstrapped))));
      }
    }
  }

  lemma InitFromIdentity(f: Files, p: Pid, op: Op)
    requires op.Init? && Vacant(f)
    ensures
      var id := if f.identity.Some? then f.identity.value else Identity(op.mintCluster, op.mintNode);
      Alone(f, p, Proc(op, LoadIdentity)) ==
        (Files(None, Some(id), Some(op.trust), Some(ClusterRecord(id.clusterId, [Member(id.nodeId, Up)])), None), Done(Success))
  {
    var id := if f.identity.Some? then f.identity.value else Identity(op.mintCluster, op.mintNode);
    var known := f.(identity := Some(id));
    assert Alone(f, p, Proc(op, LoadIdentity)) == Alone(known, p, Proc(op, WriteTrust(id)));
    var booted := known.(trust := Some(op.trust), cluster := Some(ClusterRecord(id.clusterId, [Member(id.nodeId, Up)])));
    assert Alone(known, p, Proc(op, WriteTrust(id))) == Alone(booted, p, Proc(op, Release(Success)));
    Ends(booted, p, op, Success);
  }

  /**
   * An undisturbed join: the same, if an identity the node already has names the invited cluster;
   * then trust, identity and the join record stand. Refused, it leaves every file as it was.
   */
  lemma JoinAloneIff(f: Files, p: Pid, op: Op)
    requires op.Join?
    ensures
      var (f', pc) := Alone(f, p, Proc(op, Validate));
      var id := if f.identity.Some? then f.identity.value else Identity(op.clusterId, op.mintNode);
      && (pc == Done(Success) <==>
            InviteOk(op) && f.lock.None? && f.cluster.None? && f.join.None? && (f.identity.Some? ==> f.identity.value.clusterId == op.clusterId))
      && f' == (if pc == Done(Success) then Files(None, Some(id), Some(op.trust), None, Some(JoinRecord(op.clusterId, op.endpoints))) else f)
      && (pc != Done(Success) ==> pc == Done(Refused(
           if !InviteOk(op) then InvalidInvite else if f.lock.Some? then BootstrapInProgress
           else if f.cluster.Some? || f.join.Some? then AlreadyBootstrapped else ClusterIdentityMismatch)))
  {
    var locked := f.(lock := Some(p));
    Ends(f, p, op, Refused(InvalidInvite));
    assert InviteOk(op) ==> Alone(f, p, Proc(op, Validate)) == Alone(f, p, Proc(op, Acquire));
    if InviteOk(op) && f.lock.None? {
      assert Alone(f, p, Proc(op, Acquire)) == Alone(locked, p, Proc(op, ReadCluster));
      if Vacant(f) {
        assert Alone(locked, p, Proc(op, ReadCluster)) == Alone(locked, p, Proc(op, CreateIdentity(op.clusterId)));
        JoinFromIdentity(locked, p, op);
      } else {
        Ends(locked, p, op, Refused(AlreadyBootstrapped));
        assert Alone(locked, p, Proc(op, ReadCluster)) == Alone(locked, p, Proc(op, Release(Refused(AlreadyBootstrapped))));
      }
    }
  }

  lemma JoinFromIdentity(f: Files, p: Pid, op: Op)
    requires op.Join? && Vacant(f)
    ensures var r := Alone(f, p, Proc(op, CreateIdentity(op.clusterId)));
            var id := if f.identity.Some? then f.identity.value else Identity(op.clusterId, op.mintNode);
            r == if id.clusterId == op.clusterId
                 then (Files(None, Some(id), Some(op.trust), None, Some(JoinRecord(op.clusterId, op.endpoints))), Done(Success))
                 else (f.(lock := None), Done(Refused(ClusterIdentityMismatch)))
  {
    var id := if f.identity.Some? then f.identity.value else Identity(op.clusterId, op.mintNode);
    if id.clusterId == op.clusterId {
      var known := f.(identity := Some(id));
      assert Alone(f, p, Proc(op, CreateIdentity(op.clusterId))) == Alone(known, p, Proc(op, WriteTrust(id)));
      var joined := known.(trust := Some(op.trust), join := Some(JoinRecord(op.clusterId, op.endpoints)));
      assert Alone(known, p, Proc(op, WriteTrust(id))) == Alone(joined, p, Proc(op, Release(Success)));
      Ends(joined, p, op, Success);
    } else {
      assert Alone(f, p, Proc(op, CreateIdentity(op.clusterId))) == Alone(f, p, Proc(op, Release(Refused(ClusterIdentityMismatch))));
      Ends(f, p, op, Refused(ClusterIdentityMismatch));
    }
  }

  /** First boot, undisturbed: it always succeeds, keeps an identity it finds and otherwise writes the minted one, lock or no lock. */
  lemma FirstBootAlone(f: Files, p: Pid, op: Op)
    requires op.FirstBoot?
    ensures Alone(f, p, Proc(op, Validate)) ==
      (if f.identity.Some? then f else f.(identity := Some(Identity(op.mintCluster, op.mintNode))), Done(Success))
  {
    assert Alone(f, p, Proc(op, Validate)) == Alone(f, p, Proc(op, BootLoad));
    Ends(f, p, op, Success);
    if f.identity.None? {
      var booted := f.(identity := Some(Identity(op.mintCluster, op.mintNode)));
      assert Alone(f, p, Proc(op, BootLoad)) == Alone(f, p, Proc(op, BootCreate));
      Ends(booted, p, op, Success);
      assert Alone(f, p, Proc(op, BootCreate)) == Alone(booted, p, Proc(op, Done(Success)));
    }
  }

  /** The first member of that id is in a state the operation moves from, and a removal carries the right token. */
  predicate MayMove(op: Op, r: ClusterRecord, i: nat)
    requires IsEdit(op)
  {
    && IsFirst(r.members, op.node, i)
    && (if op.Drain? then r.members[i].state == Up else r.members[i].state in {Up, Draining, Down} && op.token == TokenFor(r.clusterId, op.node))
  }

  function Moved(op: Op, r: ClusterRecord, i: nat): ClusterRecord
    requires IsEdit(op) && i < |r.members|
  {
    r.(members := r.members[i := Member(op.node, if op.Drain? then Draining else Decommissioned)])
  }

  lemma EditIff(op: Op, r: ClusterRecord)
    requires IsEdit(op)
    ensures Edited(op, r).0.Success? <==> exists i: nat :: MayMove(op, r, i)
    ensures forall i: nat :: MayMove(op, r, i) ==> Edited(op, r) == (Success, Moved(op, r, i))
  {
    IndexOfFinds(r.members, op.node);
    forall i: nat | MayMove(op, r, i) ensures IndexOf(r.members, op.node) == Some(i) && Edited(op, r) == (Success, Moved(op, r, i)) {
      assert r.members[i].(state := if op.Drain? then Draining else Decommissioned) == Member(op.node, if op.Drain? then Draining else Decommissioned);
    }
    if Edited(op, r).0.Success? {
      assert MayMove(op, r, IndexOf(r.members, op.node).value);
    }
  }

  /**
   * An undisturbed drain or removal: it succeeds exactly when the lock is free, the node is
   * initialized, and the first member of that id may be moved so; then that member, and no other,
   * has its new state. Refused, it leaves every file as it was.
   */
  lemma EditMovesOneMember(f: Files, p: Pid, op: Op)
    requires IsEdit(op)
    ensures
      var (f', pc) := Alone(f, p, Proc(op, Validate));
      && (pc == Done(Success) <==> f.lock.None? && f.cluster.Some? && exists i: nat :: MayMove(op, f.cluster.value, i))
      && (pc == Done(Success) ==> forall i: nat :: MayMove(op, f.cluster.value, i) ==> f' == f.(cluster := Some(Moved(op, f.cluster.value, i))))
      && (pc != Done(Success) ==> f' == f && pc.Done?)
  {
    Ends(f, p, op, Success);
    assert Alone(f, p, Proc(op, Validate)) == Alone(f, p, Proc(op, Acquire));
    if f.lock.None? {
      var locked := f.(lock := Some(p));
      assert Alone(f, p, Proc(op, Acquire)) == Alone(locked, p, Proc(op, ReadCluster));
      if f.cluster.None? {
        Ends(locked, p, op, Refused(NotInitialized));
        assert Alone(locked, p, Proc(op, ReadCluster)) == Alone(locked, p, Proc(op, Release(Refused(NotInitialized))));
      } else {
        EditIff(op, f.cluster.value);
        EditFromRecord(locked, p, op);
      }
    }
  }

  lemma EditFromRecord(f: Files, p: Pid, op: Op)
    requires IsEdit(op) && f.cluster.Some?
    ensures
      var (out, updated) := Edited(op, f.cluster.value);
      Alone(f, p, Proc(op, ReadCluster)) == (f.(lock := None, cluster := if out.Success? then Some(updated) else f.cluster), Done(out))
  {
    var (out, updated) := Edited(op, f.cluster.value);
    var after := if out.Success? then f.(cluster := Some(updated)) else f;
    assert Alone(f, p, Proc(op, ReadCluster)) == Alone(after, p, Proc(op, Release(out)));
    Ends(after, p, op, out);
  }
}
