/** What one applied command can do to each record, and what whole runs keep. */
module DdlHistory {
  import opened Common
  import opened DdlTypes
  import opened DdlStoreSpec
  import opened DdlInvariant

  /** One command as the replicated log carries it. */
  datatype Call = Call(command: DdlCommand, id: Option<nat>, ts: Timestamp)

  /** The command finds no panic: `next` is the store after it. */
  ghost predicate Applies(s: Store, call: Call, next: Store) {
    && Apply(s, call.command, call.id, call.ts).Applied?
    && next == Apply(s, call.command, call.id, call.ts).store
  }

  ghost predicate Steps(s: Store, call: Call, next: Store) {
    WellFormed(s, call.command) && Applies(s, call, next)
  }

  /** Any commands at all, from any store, as long as none panics. */
  ghost predicate IsLog(states: seq<Store>, calls: seq<Call>) {
    && |states| == |calls| + 1
    && forall i :: 0 <= i < |calls| ==> Applies(states[i], calls[i], states[i + 1])
  }

  /** A run of the store: well-formed commands from a store satisfying the invariant. */
  ghost predicate IsRun(states: seq<Store>, calls: seq<Call>) {
    && |states| == |calls| + 1 && Inv(states[0])
    && forall i :: 0 <= i < |calls| ==> Steps(states[i], calls[i], states[i + 1])
  }

  lemma RunIsLog(states: seq<Store>, calls: seq<Call>)
    requires IsRun(states, calls)
    ensures IsLog(states, calls)
  {
    forall i | 0 <= i < |calls| ensures Applies(states[i], calls[i], states[i + 1]) {
      assert Steps(states[i], calls[i], states[i + 1]);
    }
  }

  lemma EmptyStoreOk()
    ensures Inv(EMPTY_STORE)
  {
  }

  /** From every store satisfying the invariant every well-formed command applies without panic,
      and leaves a store satisfying the invariant. */
  lemma StepKeeps(s: Store, call: Call)
    requires Inv(s) && WellFormed(s, call.command)
    ensures Apply(s, call.command, call.id, call.ts).Applied?
    ensures Inv(Apply(s, call.command, call.id, call.ts).store)
  {
    TickKeeps(s);
    TickIsPast(s);
    DispatchKeeps(Ticked(s), call.command, call.ts);
  }

  lemma {:induction false} RunKeeps(states: seq<Store>, calls: seq<Call>, i: nat)
    requires IsRun(states, calls) && i < |states|
    ensures Inv(states[i])
  {
    if i > 0 {
      RunKeeps(states, calls, i - 1);
      assert Steps(states[i - 1], calls[i - 1], states[i]);
      StepKeeps(states[i - 1], calls[i - 1]);
    }
  }

  ghost predicate EndsAt(states: seq<Store>, calls: seq<Call>, s: Store) {
    IsRun(states, calls) && states[0] == EMPTY_STORE && states[|calls|] == s
  }

  /** Some run of well-formed commands leads from the empty store to `s`. */
  ghost predicate Reachable(s: Store) {
    exists states, calls :: EndsAt(states, calls, s)
  }

  lemma EmptyReachable()
    ensures Reachable(EMPTY_STORE)
  {
    EmptyStoreOk();
    assert EndsAt([EMPTY_STORE], [], EMPTY_STORE);
  }

  lemma ReachableInv(s: Store)
    requires Reachable(s)
    ensures Inv(s)
  {
    var states, calls :| EndsAt(states, calls, s);
    RunKeeps(states, calls, |calls|);
  }

  lemma ReachableStep(s: Store, call: Call, next: Store)
    requires Reachable(s) && Steps(s, call, next)
    ensures Reachable(next)
  {
    var states, calls :| EndsAt(states, calls, s);
    var states', calls' := states + [next], calls + [call];
    forall i | 0 <= i < |calls'| ensures Steps(states'[i], calls'[i], states'[i + 1]) {
      assert i < |calls| ==> Steps(states[i], calls[i], states[i + 1]);
    }
    assert EndsAt(states', calls', next);
  }

  // ------------------------------------------------------------- refusals

  /** Every command counts, accepted or not. */
  lemma VersionTicks(s: Store, c: DdlCommand, id: Option<nat>, ts: Timestamp)
    requires Apply(s, c, id, ts).Applied?
    ensures Apply(s, c, id, ts).store.version == s.version + 1
    ensures Apply(s, c, id, ts).result.Ok? ==> Apply(s, c, id, ts).store.journal == s.journal
  {
  }

  /** What a command adds to the journal. */
  ghost function RefusalOf(s: Store, call: Call): (r: seq<JournalEntry>)
    ensures |r| <= 1
  {
    match Apply(s, call.command, call.id, call.ts)
    case Applied(_, Err(reason)) => [JournalEntry(call.id, reason)]
    case _ => []
  }

  /** The refusals among the first `n` commands, oldest first. */
  ghost function Refusals(states: seq<Store>, calls: seq<Call>, n: nat): seq<JournalEntry>
    requires n <= |calls| < |states|
  {
    if n == 0 then [] else Refusals(states, calls, n - 1) + RefusalOf(states[n - 1], calls[n - 1])
  }

  ghost predicate JournalStep(s: Store, refusal: seq<JournalEntry>, next: Store) {
    && next.version == s.version + 1
    && next.journal == if refusal == [] then s.journal else Tail(s.journal + refusal, DDL_REJECTION_LIMIT)
  }

  lemma StepJournals(s: Store, call: Call, next: Store)
    requires Applies(s, call, next)
    ensures JournalStep(s, RefusalOf(s, call), next)
  {
    VersionTicks(s, call.command, call.id, call.ts);
  }

  /** At every point of a log the journal is the last 256 refusals so far, and the version counts the commands. */
  lemma {:induction false} JournalIsRecentRefusals(states: seq<Store>, calls: seq<Call>, n: nat)
    requires IsLog(states, calls) && states[0].journal == [] && n <= |calls|
    ensures states[n].journal == Tail(Refusals(states, calls, n), DDL_REJECTION_LIMIT)
    ensures states[n].version == states[0].version + n
  {
    if n > 0 {
      JournalIsRecentRefusals(states, calls, n - 1);
      assert Applies(states[n - 1], calls[n - 1], states[n]);
      StepJournals(states[n - 1], calls[n - 1], states[n]);
      JournalGrows(states[n - 1], RefusalOf(states[n - 1], calls[n - 1]), states[n], Refusals(states, calls, n - 1));
    }
  }

  lemma JournalGrows(s: Store, refusal: seq<JournalEntry>, next: Store, before: seq<JournalEntry>)
    requires JournalStep(s, refusal, next) && |refusal| <= 1 && s.journal == Tail(before, DDL_REJECTION_LIMIT)
    ensures next.journal == Tail(before + refusal, DDL_REJECTION_LIMIT)
  {
    if refusal == [] {
      assert before + refusal == before;
    } else {
      assert refusal == [refusal[0]];
      TailOfTail(before, refusal[0], DDL_REJECTION_LIMIT);
    }
  }
}
