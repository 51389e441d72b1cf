/**
 Concrete runs that show each hypothesis of the exactly-once and verifier
 theorems is needed: drop it and an operation is applied twice, or a call that
 returns normally leaves rows the verifier rejects.
 */
module SettlementWitnesses {
  import opened Support
  import opened Rounds
  import opened SettlementPlan
  import opened SettlementStore
  import opened SettlementProtocol
  import opened SettlementSafety
  import opened SettlementEffects
  import opened SettlementLease
  import opened SettlementTheorems

  /** Nothing has happened yet to a plan with at least one operation. */
  ghost predicate Fresh(st: State) {
    && st.store.operations != [] && (forall k :: 0 <= k < |st.store.operations| ==> st.store.operations[k] == NewOperation(st.store.operations[k].planned))
    && st.store.foreign == {}
    && st.store.settlement.status == Pending && st.store.settlement.leaseOwner.None?
    && st.store.columns == RoundColumns(Pending, None, None)
    && st.effects == [] && st.workers == map[] && st.issued == 0
  }

  function FirstPlanned(st: State): Planned
    requires st.store.operations != []
  {
    st.store.operations[0].planned
  }

  /** A well-formed provider result with the given signature. */
  function ResultFor(request: Planned, signature: string): ProviderResult {
    ProviderResult(request.requestKey, DigestOf(request.requestHash, signature), signature)
  }

  /** All hypotheses but the lease and the recording one. */
  ghost predicate HonestRun(st: State, steps: seq<Step>) {
    steps == [] || (
      var init, last := steps[..|steps| - 1], steps[|steps| - 1];
      HonestRun(st, init) && Truthful(Run(st, init), last) && WellFormed(Run(st, init), last))
  }

  lemma OneStep(st: State, steps: seq<Step>, step: Step)
    ensures Run(st, steps + [step]) == Successor(Run(st, steps), step)
    ensures HonestRun(st, steps + [step]) <==>
              HonestRun(st, steps) && Truthful(Run(st, steps), step) && WellFormed(Run(st, steps), step)
    ensures LeasedRun(st, steps + [step]) <==>
              LeasedRun(st, steps) && NoOverrun(Run(st, steps), step) && Truthful(Run(st, steps), step) && WellFormed(Run(st, steps), step)
    ensures RecordedRun(st, steps + [step]) <==>
              RecordedRun(st, steps) && NothingLost(Run(st, steps), step) && Admitted(Run(st, steps), step)
  {
    assert (steps + [step])[..|steps|] == steps;
    assert (steps + [step])[|steps|] == step;
  }

  /** What all witness runs have in common so far. */
  ghost predicate Extends(st: State, steps: seq<Step>, leased: bool, recorded: bool) {
    && HonestRun(st, steps) && (leased ==> LeasedRun(st, steps)) && (recorded ==> RecordedRun(st, steps))
  }

  /** Claim, read the first operation and reconcile to nothing: ready to execute it. */
  function Approach(worker: nat): seq<Step> {
    [Claim, Read(worker), Reconcile(worker, None)]
  }

  function Claimed(st: State, worker: nat): Store {
    st.store.(settlement := st.store.settlement.(
      leaseOwner := Some(worker), leaseExpiresAt := Some(st.now + SETTLEMENT_LEASE_MS), version := st.store.settlement.version + 1))
  }

  /** The lease can be taken and the first operation is still prepared or retryable. */
  predicate Claimable(st: State) {
    && st.store.operations != [] && st.store.operations[0].status != Finalized && st.store.operations[0].mode != ReconcileOnly
    && ClaimLease(st.store, st.issued, st.now) == Some(Claimed(st, st.issued))
    && st.issued !in st.workers
  }

  lemma ApproachReaches(st: State, steps: seq<Step>, leased: bool, recorded: bool)
    requires var at := Run(st, steps); Claimable(at)
    requires Extends(st, steps, leased, recorded)
    ensures var at := Run(st, steps);
            && Run(st, steps + Approach(at.issued))
               == at.(store := Claimed(at, at.issued), issued := at.issued + 1,
                      workers := at.workers[at.issued := Executing(0, at.store.operations[0])])
            && Extends(st, steps + Approach(at.issued), leased, recorded)
  {
    hide HonestRun, LeasedRun, RecordedRun, Run, ClaimLease;
    var at := Run(st, steps);
    var w := at.issued;
    OneStep(st, steps, Claim);
    OneStep(st, steps + [Claim], Read(w));
    OneStep(st, steps + [Claim] + [Read(w)], Reconcile(w, None));
    assert steps + Approach(w) == steps + [Claim] + [Read(w)] + [Reconcile(w, None)];
    var row := at.store.operations[0];
    assert at.workers[w := Reading(0)][w := Reconciling(0, row)][w := Executing(0, row)] == at.workers[w := Executing(0, row)];
  }

  /** The worker's provider call applies the first operation and returns the result. */
  lemma ExecuteApplies(st: State, steps: seq<Step>, worker: nat, signature: string, leased: bool, recorded: bool)
    requires var at := Run(st, steps);
             && at.store.operations != [] && worker in at.workers && at.workers[worker] == Executing(0, at.store.operations[0])
    requires Extends(st, steps, leased, recorded) && signature != ""
    ensures var at := Run(st, steps);
            var result := ResultFor(FirstPlanned(at), signature);
            var steps' := steps + [Execute(worker, Some(result), Returned(result))];
            && Run(st, steps') == at.(workers := at.workers[worker := Finalizing(0, result, true)],
                                      effects := at.effects + [Applied(FirstPlanned(at), result)])
            && Extends(st, steps', leased, recorded)
  {
    hide HonestRun, LeasedRun, RecordedRun, Run;
    var at := Run(st, steps);
    var result := ResultFor(FirstPlanned(at), signature);
    OneStep(st, steps, Execute(worker, Some(result), Returned(result)));
  }

  /** A minute passes. */
  lemma MinutePasses(st: State, steps: seq<Step>, leased: bool, recorded: bool)
    requires Extends(st, steps, leased, recorded)
    requires leased ==> (var at := Run(st, steps); at.store.settlement.leaseOwner.Some? ==> at.store.settlement.leaseOwner.value !in at.workers)
    ensures var at := Run(st, steps);
            var steps' := steps + [Tick(at.now + SETTLEMENT_LEASE_MS)];
            Run(st, steps') == at.(now := at.now + SETTLEMENT_LEASE_MS) && Extends(st, steps', leased, recorded)
  {
    hide HonestRun, LeasedRun, RecordedRun, Run;
    OneStep(st, steps, Tick(Run(st, steps).now + SETTLEMENT_LEASE_MS));
  }

  /** Two effects are recorded for the first operation's key. */
  ghost predicate AppliedTwice(st: State) {
    && st.store.operations != [] && |st.effects| == 2
    && EffectsOf(st.effects, FirstPlanned(st).requestKey) == {0, 1}
  }

  /** A worker that outlives its lease executes beside its successor, although nothing crashes and nothing is lost. */
  lemma OverrunAppliesTwice(st: State) returns (steps: seq<Step>)
    requires Fresh(st)
    ensures HonestRun(st, steps) && RecordedRun(st, steps) && AppliedTwice(Run(st, steps))
  {
    hide HonestRun, LeasedRun, RecordedRun, Run;
    steps := [];
    EmptyExtends(st, false, true);
    ApproachReaches(st, steps, false, true);
    steps := steps + Approach(0);
    MinutePasses(st, steps, false, true);
    steps := steps + [Tick(st.now + SETTLEMENT_LEASE_MS)];
    ApproachReaches(st, steps, false, true);
    steps := steps + Approach(1);
    ExecuteApplies(st, steps, 0, "first", false, true);
    steps := steps + [Execute(0, Some(ResultFor(FirstPlanned(st), "first")), Returned(ResultFor(FirstPlanned(st), "first")))];
    ExecuteApplies(st, steps, 1, "second", false, true);
    steps := steps + [Execute(1, Some(ResultFor(FirstPlanned(st), "second")), Returned(ResultFor(FirstPlanned(st), "second")))];
  }

  lemma EmptyExtends(st: State, leased: bool, recorded: bool)
    ensures Extends(st, [], leased, recorded) && Run(st, []) == st
  {
  }

  /** A crash between execute and its recording makes the next worker execute again, although no lease is overrun. */
  lemma CrashAppliesTwice(st: State) returns (steps: seq<Step>)
    requires Fresh(st)
    ensures LeasedRun(st, steps) && AppliedTwice(Run(st, steps))
  {
    hide HonestRun, LeasedRun, RecordedRun, Run;
    steps := [];
    EmptyExtends(st, true, false);
    ApproachReaches(st, steps, true, false);
    steps := steps + Approach(0);
    ExecuteApplies(st, steps, 0, "first", true, false);
    steps := steps + [Execute(0, Some(ResultFor(FirstPlanned(st), "first")), Returned(ResultFor(FirstPlanned(st), "first")))];
    OneStep(st, steps, Crash(0));
    steps := steps + [Crash(0)];
    MinutePasses(st, steps, true, false);
    steps := steps + [Tick(st.now + SETTLEMENT_LEASE_MS)];
    ApproachReaches(st, steps, true, false);
    steps := steps + Approach(1);
    ExecuteApplies(st, steps, 1, "second", true, false);
    steps := steps + [Execute(1, Some(ResultFor(FirstPlanned(st), "second")), Returned(ResultFor(FirstPlanned(st), "second")))];
  }

  /** So does a failed finalizing transaction: the worker releases its lease and the next one executes again at once. */
  lemma LostCommitAppliesTwice(st: State) returns (steps: seq<Step>)
    requires Fresh(st)
    ensures LeasedRun(st, steps) && AppliedTwice(Run(st, steps))
    ensures forall w :: Crash(w) !in steps
  {
    hide HonestRun, LeasedRun, RecordedRun, Run;
    steps := [];
    EmptyExtends(st, true, false);
    ApproachReaches(st, steps, true, false);
    steps := steps + Approach(0);
    ExecuteApplies(st, steps, 0, "first", true, false);
    steps := steps + [Execute(0, Some(ResultFor(FirstPlanned(st), "first")), Returned(ResultFor(FirstPlanned(st), "first")))];
    OneStep(st, steps, CommitFails(0));
    steps := steps + [CommitFails(0)];
    OneStep(st, steps, Release(0));
    steps := steps + [Release(0)];
    ApproachReaches(st, steps, true, false);
    steps := steps + Approach(1);
    ExecuteApplies(st, steps, 1, "second", true, false);
    steps := steps + [Execute(1, Some(ResultFor(FirstPlanned(st), "second")), Returned(ResultFor(FirstPlanned(st), "second")))];
  }

  /** The worker is about to read the second operation, which nothing has touched yet. */
  predicate SecondReady(at: State, w: nat) {
    && |at.store.operations| >= 2 && at.store.operations[1] == NewOperation(at.store.operations[1].planned)
    && w in at.workers && at.workers[w] == Reading(1)
  }

  function ExecuteSecond(at: State, w: nat, signature: string): seq<Step>
    requires SecondReady(at, w)
  {
    var result := ResultFor(at.store.operations[1].planned, signature);
    [Read(w), Reconcile(w, None), Execute(w, Some(result), Returned(result))]
  }

  /** It reconciles to nothing and the provider applies it. */
  lemma SecondExecutes(st: State, steps: seq<Step>, w: nat, signature: string)
    requires Extends(st, steps, true, false) && SecondReady(Run(st, steps), w) && signature != ""
    ensures var at := Run(st, steps);
            var result := ResultFor(at.store.operations[1].planned, signature);
            && Run(st, steps + ExecuteSecond(at, w, signature))
               == at.(workers := at.workers[w := Finalizing(1, result, true)], effects := at.effects + [Applied(at.store.operations[1].planned, result)])
            && Extends(st, steps + ExecuteSecond(at, w, signature), true, false)
  {
    hide HonestRun, LeasedRun, RecordedRun, Run;
    var at := Run(st, steps);
    var row := at.store.operations[1];
    var result := ResultFor(row.planned, signature);
    OneStep(st, steps, Read(w));
    OneStep(st, steps + [Read(w)], Reconcile(w, None));
    OneStep(st, steps + [Read(w)] + [Reconcile(w, None)], Execute(w, Some(result), Returned(result)));
    assert steps + ExecuteSecond(at, w, signature)
        == steps + [Read(w)] + [Reconcile(w, None)] + [Execute(w, Some(result), Returned(result))];
    assert at.workers[w := Reconciling(1, row)][w := Executing(1, row)][w := Finalizing(1, result, true)]
        == at.workers[w := Finalizing(1, result, true)];
  }

  /** The worker holds a result for the second operation whose signature the first one has stored. */
  predicate HoldsShared(at: State) {
    && |at.store.operations| >= 2 && at.store.operations[1] == NewOperation(at.store.operations[1].planned)
    && at.store.operations[0].status == Finalized && at.store.operations[0].signature == Some("s")
    && at.workers == map[0 := Finalizing(1, ResultFor(at.store.operations[1].planned, "s"), true)]
    && at.store.settlement.leaseOwner == Some(0) && at.store.settlement.status != Settled && at.issued == 1
  }

  lemma SharedReleases(at: State)
    requires HoldsShared(at)
    ensures var released := Successor(Successor(at, Commit(0)), Release(0));
            && released.workers == map[] && released.store.operations == at.store.operations && released.effects == at.effects
            && released.issued == 1 && released.store.settlement.leaseOwner.None? && released.store.settlement.status != Settled
  {
    assert !SignatureFree(at.store, 1, "s");
    assert Successor(at, Commit(0)) == MoveTo(at, 0, Releasing);
  }

  /** The signature of the first operation is refused for the second, and the next worker arrives at it again. */
  lemma SharedIsRefused(st: State, steps: seq<Step>)
    requires Extends(st, steps, true, false) && HoldsShared(Run(st, steps))
    ensures var at := Run(st, steps);
            var steps' := steps + [Commit(0), Release(0), Claim, Read(1)];
            var end := Run(st, steps');
            && Extends(st, steps', true, false) && SecondReady(end, 1)
            && end.store.operations == at.store.operations && end.effects == at.effects
  {
    hide HonestRun, LeasedRun, RecordedRun, Run, CommitStep, ReleaseLease;
    SharedReleases(Run(st, steps));
    OneStep(st, steps, Commit(0));
    OneStep(st, steps + [Commit(0)], Release(0));
    OneStep(st, steps + [Commit(0)] + [Release(0)], Claim);
    OneStep(st, steps + [Commit(0)] + [Release(0)] + [Claim], Read(1));
    assert steps + [Commit(0), Release(0), Claim, Read(1)] == steps + [Commit(0)] + [Release(0)] + [Claim] + [Read(1)];
  }

  /** The first operation is executed with signature `s` and finalized. */
  lemma FirstIsFinalized(st: State) returns (steps: seq<Step>)
    requires Fresh(st) && |st.store.operations| >= 2
    ensures Extends(st, steps, true, false) && SecondReady(Run(st, steps), 0)
    ensures var at := Run(st, steps);
            && |at.store.operations| == |st.store.operations| && at.store.operations[1] == st.store.operations[1]
            && at.store.operations[0].status == Finalized && at.store.operations[0].signature == Some("s")
            && at.store.settlement.leaseOwner == Some(0) && at.store.settlement.status == Pending
            && at.workers == map[0 := Reading(1)] && at.issued == 1
            && at.effects == [Applied(FirstPlanned(st), ResultFor(FirstPlanned(st), "s"))]
    ensures forall w :: Crash(w) !in steps && CommitFails(w) !in steps
  {
    hide HonestRun, LeasedRun, RecordedRun, Run;
    steps := [];
    EmptyExtends(st, true, false);
    ApproachReaches(st, steps, true, false);
    steps := steps + Approach(0);
    ExecuteApplies(st, steps, 0, "s", true, false);
    steps := steps + [Execute(0, Some(ResultFor(FirstPlanned(st), "s")), Returned(ResultFor(FirstPlanned(st), "s")))];
    assert SignatureFree(Run(st, steps).store, 0, "s");
    OneStep(st, steps, Commit(0));
    steps := steps + [Commit(0)];
  }

  /**
   A provider that reports one signature for two operations: the second record is
   refused by the unique index, its effect is lost from the rows and applied again,
   although nothing crashes, no transaction fails by itself and no lease is overrun.
   */
  lemma SharedSignatureAppliesTwice(st: State) returns (steps: seq<Step>)
    requires Fresh(st) && |st.store.operations| >= 2
    requires st.store.operations[0].planned.requestKey != st.store.operations[1].planned.requestKey
    ensures LeasedRun(st, steps)
    ensures forall w :: Crash(w) !in steps && CommitFails(w) !in steps
    ensures EffectsOf(Run(st, steps).effects, st.store.operations[1].planned.requestKey) == {1, 2}
  {
    hide HonestRun, LeasedRun, RecordedRun, Run;
    steps := FirstIsFinalized(st);
    SecondExecutes(st, steps, 0, "s");
    steps := steps + ExecuteSecond(Run(st, steps), 0, "s");
    SharedIsRefused(st, steps);
    steps := steps + [Commit(0), Release(0), Claim, Read(1)];
    SecondExecutes(st, steps, 1, "t");
    steps := steps + ExecuteSecond(Run(st, steps), 1, "t");
  }

  /** An ambiguous execute call is applied and recorded; the first operation is then reconcile-only. */
  lemma AmbiguityIsRecorded(st: State, steps: seq<Step>)
    requires Extends(st, steps, true, true)
    requires var at := Run(st, steps);
             && at.store.operations != [] && at.store.operations[0] == NewOperation(FirstPlanned(at)) && at.workers == map[0 := Executing(0, at.store.operations[0])]
             && at.store.settlement.leaseOwner == Some(0) && at.store.settlement.status == Pending && at.store.columns == RoundColumns(Pending, None, None)
             && at.effects == [] && SignatureFree(at.store, 0, "s")
    ensures var at := Run(st, steps);
            var steps' := steps + [Execute(0, Some(ResultFor(FirstPlanned(at), "s")), Ambiguous("PROVIDER_RESPONSE_AMBIGUOUS", None)), Commit(0)];
            var end := Run(st, steps');
            && Extends(st, steps', true, true)
            && end.workers == map[] && end.now == at.now && end.issued == at.issued
            && end.effects == [Applied(FirstPlanned(at), ResultFor(FirstPlanned(at), "s"))]
            && |end.store.operations| == |at.store.operations| && end.store.operations[0].planned == FirstPlanned(at)
            && end.store.operations[0].status == Recovering && end.store.operations[0].signature.None?
            && end.store.settlement.status == RecoveryNeeded && end.store.settlement.leaseOwner.None?
            && end.store.columns.status == RecoveryNeeded && SignatureFree(end.store, 0, "s")
  {
    hide HonestRun, LeasedRun, RecordedRun, Run;
    var at := Run(st, steps);
    var execute := Execute(0, Some(ResultFor(FirstPlanned(at), "s")), Ambiguous("PROVIDER_RESPONSE_AMBIGUOUS", None));
    OneStep(st, steps, execute);
    OneStep(st, steps + [execute], Commit(0));
    assert steps + [execute, Commit(0)] == steps + [execute] + [Commit(0)];
  }

  /**
   A snapshot that reads the settlement row before a recovery is recorded and the
   operations after it fails its recovery check, on a run with every hypothesis.
   */
  lemma {:induction false} TornSnapshotFails(st: State) returns (steps: seq<Step>, k: nat)
    requires Fresh(st)
    ensures LeasedRun(st, steps) && RecordedRun(st, steps) && k <= |steps|
    ensures !RecoveryAccepted(Run(st, steps[..k]).store.settlement, Run(st, steps).store.operations)
  {
    hide HonestRun, LeasedRun, RecordedRun, Run;
    steps, k := Approach(0), 3;
    EmptyExtends(st, true, true);
    ApproachReaches(st, [], true, true);
    assert [] + Approach(0) == steps;
    AmbiguityIsRecorded(st, steps);
    ghost var before := steps;
    steps := steps + [Execute(0, Some(ResultFor(FirstPlanned(st), "s")), Ambiguous("PROVIDER_RESPONSE_AMBIGUOUS", None)), Commit(0)];
    assert steps[..3] == before;
  }

  /** The next worker reconciles that effect. */
  lemma EffectIsReconciled(st: State, steps: seq<Step>)
    requires Extends(st, steps, true, true)
    requires var at := Run(st, steps);
             && at.workers == map[] && at.store.operations != [] && at.store.operations[0].status == Recovering && at.issued == 1
             && at.effects == [Applied(FirstPlanned(at), ResultFor(FirstPlanned(at), "s"))]
             && at.store.settlement.status == RecoveryNeeded && at.store.settlement.leaseOwner.None?
    ensures var at := Run(st, steps);
            var result := ResultFor(FirstPlanned(at), "s");
            var steps' := steps + [Claim, Read(1), Reconcile(1, Some(result))];
            && Extends(st, steps', true, true)
            && Run(st, steps') == at.(store := Claimed(at, 1), issued := 2, workers := map[1 := Finalizing(0, result, false)])
  {
    hide HonestRun, LeasedRun, RecordedRun, Run;
    var at := Run(st, steps);
    var result := ResultFor(FirstPlanned(at), "s");
    OneStep(st, steps, Claim);
    OneStep(st, steps + [Claim], Read(1));
    assert Known(at.effects, FirstPlanned(at), result) by { assert at.effects[0].result == result; }
    OneStep(st, steps + [Claim] + [Read(1)], Reconcile(1, Some(result)));
    assert steps + [Claim, Read(1), Reconcile(1, Some(result))] == steps + [Claim] + [Read(1)] + [Reconcile(1, Some(result))];
  }

  /** It finalizes the operation and crashes, leaving its lease behind. */
  lemma {:induction false} FinalizedThenCrashed(st: State, steps: seq<Step>)
    requires Extends(st, steps, true, true)
    requires var at := Run(st, steps);
             && at.store.operations != [] && at.store.operations[0].status == Recovering && at.store.operations[0].signature.None?
             && at.workers == map[1 := Finalizing(0, ResultFor(FirstPlanned(at), "s"), false)]
             && at.store.settlement.status == RecoveryNeeded && SignatureFree(at.store, 0, "s")
    ensures var at := Run(st, steps);
            var steps' := steps + [Commit(1), Crash(1)];
            var end := Run(st, steps');
            && Extends(st, steps', true, true) && end.workers == map[] && end.now == at.now && end.store.columns == at.store.columns
            && end.store.settlement.status == Pending
            && end.store.settlement.leaseOwner == at.store.settlement.leaseOwner
            && end.store.settlement.leaseExpiresAt == at.store.settlement.leaseExpiresAt
  {
    hide HonestRun, LeasedRun, RecordedRun, Run;
    OneStep(st, steps, Commit(1));
    OneStep(st, steps + [Commit(1)], Crash(1));
    assert steps + [Commit(1), Crash(1)] == steps + [Commit(1)] + [Crash(1)];
  }

  /**
   The verifier is not always right to trust a normal return: a later call whose
   claim is refused returns the pending snapshot normally, with nobody in flight,
   while the round still says recovery and the verifier rejects the rows.
   */
  lemma {:induction false} RefusedClaimReturnsRejectedRows(st: State, policy: SettlementPolicy) returns (steps: seq<Step>)
    requires Fresh(st)
    ensures LeasedRun(st, steps + [Claim]) && RecordedRun(st, steps + [Claim])
    ensures Run(st, steps + [Claim]) == Run(st, steps) && Run(st, steps).workers == map[]
    ensures !Verified(Run(st, steps).store, policy)
  {
    hide HonestRun, LeasedRun, RecordedRun, Run;
    steps := [];
    EmptyExtends(st, true, true);
    ApproachReaches(st, steps, true, true);
    steps := steps + Approach(0);
    AmbiguityIsRecorded(st, steps);
    steps := steps + [Execute(0, Some(ResultFor(FirstPlanned(st), "s")), Ambiguous("PROVIDER_RESPONSE_AMBIGUOUS", None)), Commit(0)];
    EffectIsReconciled(st, steps);
    steps := steps + [Claim, Read(1), Reconcile(1, Some(ResultFor(FirstPlanned(st), "s")))];
    FinalizedThenCrashed(st, steps);
    steps := steps + [Commit(1), Crash(1)];
    OneStep(st, steps, Claim);
  }
}
