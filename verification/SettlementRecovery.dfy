/**
 What puts an operation into reconcile-only recovery, and what it means for it:
 only an execute call that ended ambiguously does, and from then on the
 operation is finalized by a reconciled effect or not at all.
 */
module SettlementRecovery {
  import opened Support
  import opened Rounds
  import opened SettlementPlan
  import opened SettlementStore
  import opened SettlementProtocol
  import opened SettlementSafety
  import opened SettlementEffects

  // ---------------------------------------------------------------- only an ambiguous call

  /** The step is an execute call for operation `i` whose outcome the caller cannot tell. */
  ghost predicate EndsAmbiguously(st: State, step: Step, i: nat) {
    AtExecute(st, step) && st.workers[step.worker].index == i && step.response.Ambiguous?
  }

  /** Some execute call for operation `i` has ended ambiguously in the run. */
  ghost predicate HasEndedAmbiguously(st: State, steps: seq<Step>, i: nat) {
    exists s :: 0 <= s < |steps| && EndsAmbiguously(Run(st, steps[..s]), steps[s], i)
  }

  /** The worker has read, or is about to record, operation `i` as reconcile-only. */
  predicate HoldsReconcileOnly(phase: Phase, i: nat) {
    match phase
    case Reconciling(k, row) => k == i && row.mode == ReconcileOnly
    case Recording(k, _, mode, _, _) => k == i && mode == ReconcileOnly
    case _ => false
  }

  /** No trace of reconcile-only recovery of operation `i`, in its row or in any worker. */
  ghost predicate NeverAmbiguous(st: State, i: nat) {
    && (i < |st.store.operations| ==> st.store.operations[i].mode != ReconcileOnly)
    && forall w :: w in st.workers ==> !HoldsReconcileOnly(st.workers[w], i)
  }

  lemma CommitKeepsNeverAmbiguous(st: State, worker: nat, i: nat)
    requires NeverAmbiguous(st, i) && worker in st.workers
    ensures NeverAmbiguous(CommitStep(st, worker, st.workers[worker]), i)
  {
    hide SignatureFree, RecoveryFree, CountFinalized, InventoryAfter, ReceiptOf, TerminalIntact, AllComplete;
    assert !HoldsReconcileOnly(st.workers[worker], i);
  }

  /** Any step but an ambiguous execute call leaves no trace. */
  lemma StepKeepsNeverAmbiguous(st: State, step: Step, i: nat)
    requires NeverAmbiguous(st, i) && !EndsAmbiguously(st, step, i)
    ensures NeverAmbiguous(Successor(st, step), i)
  {
    if step.Commit? && step.worker in st.workers {
      CommitKeepsNeverAmbiguous(st, step.worker, i);
    }
    hide CommitStep, HeldHere;
  }

  lemma {:induction false} RunKeepsNeverAmbiguous(st: State, steps: seq<Step>, i: nat)
    requires NeverAmbiguous(st, i) && !HasEndedAmbiguously(st, steps, i)
    ensures NeverAmbiguous(Run(st, steps), i)
  {
    if steps != [] {
      var init, last := steps[..|steps| - 1], steps[|steps| - 1];
      forall s | 0 <= s < |init| ensures !EndsAmbiguously(Run(st, init[..s]), init[s], i) {
        assert init[..s] == steps[..s] && init[s] == steps[s];
      }
      RunKeepsNeverAmbiguous(st, init, i);
      assert !EndsAmbiguously(Run(st, init), last, i);
      StepKeepsNeverAmbiguous(Run(st, init), last, i);
    }
  }

  lemma StartIsUntouched(facts: RoundFacts, policy: SettlementPolicy, now: int, i: nat)
    requires Settleable(facts, policy)
    ensures NeverAmbiguous(Start(facts, policy, now), i) && LeaseBounded(Start(facts, policy, now))
  {
    hide RequestFor, BindingsFor, ExpectedPlan, PromisesVerified;
  }

  /**
   In every interleaving from the opened settlement, an operation is
   reconcile-only only if an execute call for it has ended ambiguously: after a
   definite refusal, a failed transaction or a crash it may be executed again.
   */
  lemma {:induction false} ReconcileOnlyNeedsAmbiguity(facts: RoundFacts, policy: SettlementPolicy, now: int, steps: seq<Step>, i: nat)
    requires Settleable(facts, policy) && i < |Run(Start(facts, policy, now), steps).store.operations|
    requires Run(Start(facts, policy, now), steps).store.operations[i].mode == ReconcileOnly
    ensures HasEndedAmbiguously(Start(facts, policy, now), steps, i)
  {
    hide Start, Run, HasEndedAmbiguously, Settleable;
    var start := Start(facts, policy, now);
    StartIsUntouched(facts, policy, now, i);
    if !HasEndedAmbiguously(start, steps, i) {
      RunKeepsNeverAmbiguous(start, steps, i);
    }
  }

  // ---------------------------------------------------------------- and from then on

  /** The worker can neither execute operation `i` again nor finalize it without an answer. */
  predicate CannotFinish(phase: Phase, i: nat) {
    match phase
    case Reconciling(k, row) => k == i ==> row.mode == ReconcileOnly
    case Executing(k, _) => k != i
    case Finalizing(k, _, _) => k != i
    case Recording(k, _, mode, _, _) => k == i ==> mode == ReconcileOnly
    case _ => true
  }

  /** Operation `i` waits for an effect that was never applied. */
  ghost predicate Waiting(st: State, i: nat) {
    && i < |st.store.operations| && st.store.operations[i].status != Finalized && st.store.operations[i].mode == ReconcileOnly
    && !KeyApplied(st.effects, st.store.operations[i].planned.requestKey)
    && forall w :: w in st.workers ==> CannotFinish(st.workers[w], i)
  }

  lemma CommitKeepsWaiting(st: State, worker: nat, i: nat)
    requires Safe(st) && Waiting(st, i) && worker in st.workers
    ensures Waiting(CommitStep(st, worker, st.workers[worker]), i)
  {
    hide SignatureFree, RecoveryFree, CountFinalized, InventoryAfter, ReceiptOf, TerminalIntact, FinalityAccepted, UniqueSignatures;
    assert CannotFinish(st.workers[worker], i);
  }

  lemma ExecuteKeepsWaiting(st: State, step: Step, i: nat)
    requires Safe(st) && DistinctRequests(st.store.operations) && Waiting(st, i) && AtExecute(st, step)
    ensures Waiting(Successor(st, step), i)
  {
    var phase := st.workers[step.worker];
    assert CannotFinish(phase, i) && PhaseSafe(phase, st.store);
    hide StoreSafe;
    assert phase.row.planned.requestKey != st.store.operations[i].planned.requestKey;
  }

  lemma ReconcileKeepsWaiting(st: State, step: Step, i: nat)
    requires Safe(st) && Waiting(st, i) && Truthful(st, step) && AtReconcile(st, step)
    ensures Waiting(Successor(st, step), i)
  {
    var phase := st.workers[step.worker];
    assert CannotFinish(phase, i) && PhaseSafe(phase, st.store);
    hide StoreSafe;
  }

  lemma StepKeepsWaiting(st: State, step: Step, i: nat)
    requires Safe(st) && DistinctRequests(st.store.operations) && Waiting(st, i) && Truthful(st, step)
    ensures Waiting(Successor(st, step), i)
  {
    if AtExecute(st, step) {
      ExecuteKeepsWaiting(st, step, i);
    } else if AtReconcile(st, step) {
      ReconcileKeepsWaiting(st, step, i);
    } else if step.Commit? && step.worker in st.workers {
      CommitKeepsWaiting(st, step.worker, i);
    } else {
      hide CommitStep, HeldHere, StoreSafe, KeyApplied;
    }
  }

  /** The provider is truthful at every step; it need not deduplicate, and workers may outlive their leases. */
  ghost predicate TruthfulRun(st: State, steps: seq<Step>) {
    steps == [] || (TruthfulRun(st, steps[..|steps| - 1]) && Truthful(Run(st, steps[..|steps| - 1]), steps[|steps| - 1]))
  }

  lemma ProgressKeepsRequests(store: Store, store': Store)
    requires Progress(store, store') && DistinctRequests(store.operations)
    ensures DistinctRequests(store'.operations)
  {
  }

  /**
   Once an ambiguous call has left an operation waiting for an effect that was
   never applied, no truthful continuation executes or finalizes it, whatever
   the workers, leases and failures; its settlement is never settled.
   */
  lemma {:induction false} DroppedCallIsNeverRetried(st: State, steps: seq<Step>, i: nat)
    requires Safe(st) && DistinctRequests(st.store.operations) && Waiting(st, i) && TruthfulRun(st, steps)
    ensures var at := Run(st, steps);
            && Waiting(at, i) && at.store.operations[i].planned == st.store.operations[i].planned
            && at.store.settlement.status != Settled
  {
    EveryInterleavingIsSafe(st, steps);
    FinalityIsForever(st, steps);
    if steps != [] {
      var init, last := steps[..|steps| - 1], steps[|steps| - 1];
      DroppedCallIsNeverRetried(st, init, i);
      EveryInterleavingIsSafe(st, init);
      FinalityIsForever(st, init);
      ProgressKeepsRequests(st.store, Run(st, init).store);
      StepKeepsWaiting(Run(st, init), last, i);
    }
    hide Waiting, TruthfulRun;
    WaitingIsOpen(Run(st, steps), i);
  }

  lemma WaitingIsOpen(st: State, i: nat)
    requires Safe(st) && Waiting(st, i)
    ensures st.store.settlement.status != Settled
  {
  }

  // ---------------------------------------------------------------- a reported signature binds

  /** A stored signature is never replaced. */
  lemma StepKeepsSignature(st: State, step: Step, i: nat, signature: string)
    requires i < |st.store.operations| && st.store.operations[i].signature == Some(signature)
    ensures var after := Successor(st, step).store;
            i < |after.operations| && after.operations[i].signature == Some(signature)
  {
    hide SignatureFree, RecoveryFree, CountFinalized, InventoryAfter, ReceiptOf, TerminalIntact, AllComplete, HeldHere;
  }

  lemma {:induction false} RunKeepsSignature(st: State, steps: seq<Step>, i: nat, signature: string)
    requires i < |st.store.operations| && st.store.operations[i].signature == Some(signature)
    ensures var after := Run(st, steps).store;
            i < |after.operations| && after.operations[i].signature == Some(signature)
  {
    if steps != [] {
      RunKeepsSignature(st, steps[..|steps| - 1], i, signature);
      hide Successor;
      StepKeepsSignature(Run(st, steps[..|steps| - 1]), steps[|steps| - 1], i, signature);
    }
  }

  /** An execute call for operation `i` ends ambiguously, reports a signature, and its record is accepted. */
  predicate Reports(st: State, worker: nat, i: nat, code: string, signature: string) {
    && worker in st.workers && st.workers[worker].Executing? && st.workers[worker].index == i
    && i < |st.store.operations| && st.store.operations[i].status != Finalized && signature != ""
    && RecordRecovery(st.store, i, worker, code, ReconcileOnly, Some(signature), true).Ok?
  }

  /** The two steps by which it ends and is recorded. */
  function Reported(st: State, worker: nat, effect: Option<ProviderResult>, code: string, signature: string): State {
    Successor(Successor(st, Execute(worker, effect, Ambiguous(code, Some(signature)))), Commit(worker))
  }

  /**
   The signature an ambiguous call reported stays with the operation in every
   continuation: it is finalized with that signature or not at all.
   */
  lemma {:induction false} ReportedSignatureBinds(st: State, worker: nat, i: nat, effect: Option<ProviderResult>, code: string, signature: string,
                                                  steps: seq<Step>)
    requires Reports(st, worker, i, code, signature)
    ensures var after := Run(Reported(st, worker, effect, code, signature), steps).store;
            i < |after.operations| && after.operations[i].signature == Some(signature)
  {
    ReportIsStored(st, worker, i, effect, code, signature);
    hide Reported, Reports;
    RunKeepsSignature(Reported(st, worker, effect, code, signature), steps, i, signature);
  }

  lemma ReportIsStored(st: State, worker: nat, i: nat, effect: Option<ProviderResult>, code: string, signature: string)
    requires Reports(st, worker, i, code, signature)
    ensures var after := Reported(st, worker, effect, code, signature).store;
            i < |after.operations| && after.operations[i].signature == Some(signature)
  {
    hide SignatureFree;
  }

  // ---------------------------------------------------------------- a lease lasts a minute

  /** No lease reaches further than a minute ahead. */
  predicate LeaseBounded(st: State) {
    var row := st.store.settlement;
    row.leaseOwner.Some? ==> row.leaseExpiresAt.Some? && row.leaseExpiresAt.value <= st.now + 60_000
  }

  lemma StepKeepsLeaseBounded(st: State, step: Step)
    requires LeaseBounded(st)
    ensures LeaseBounded(Successor(st, step))
  {
    hide SignatureFree, RecoveryFree, CountFinalized, InventoryAfter, ReceiptOf, TerminalIntact, AllComplete, HeldHere;
  }

  lemma {:induction false} RunKeepsLeaseBounded(st: State, steps: seq<Step>)
    requires LeaseBounded(st)
    ensures LeaseBounded(Run(st, steps))
  {
    if steps != [] {
      RunKeepsLeaseBounded(st, steps[..|steps| - 1]);
      StepKeepsLeaseBounded(Run(st, steps[..|steps| - 1]), steps[|steps| - 1]);
    }
  }

  /** Whatever crashed or was stranded: a minute on, an unsettled settlement can be claimed by the next call. */
  lemma {:induction false} ClaimableAfterAMinute(facts: RoundFacts, policy: SettlementPolicy, now: int, steps: seq<Step>, owner: nat, later: int)
    requires Settleable(facts, policy) && later >= Run(Start(facts, policy, now), steps).now + 60_000
    ensures var store := Run(Start(facts, policy, now), steps).store;
            ClaimLease(store, owner, later).Some? <==> store.settlement.status != Settled
  {
    hide *;
    StartIsUntouched(facts, policy, now, 0);
    RunKeepsLeaseBounded(Start(facts, policy, now), steps);
    BoundedIsClaimable(Run(Start(facts, policy, now), steps), owner, later);
  }

  lemma BoundedIsClaimable(st: State, owner: nat, later: int)
    requires LeaseBounded(st) && later >= st.now + 60_000
    ensures ClaimLease(st.store, owner, later).Some? <==> st.store.settlement.status != Settled
  {
  }

  /** Within that minute nobody else gets it. */
  lemma ClaimLastsAMinute(store: Store, owner: nat, now: int, other: nat, later: int)
    requires ClaimLease(store, owner, now).Some?
    ensures ClaimLease(ClaimLease(store, owner, now).value, other, later).Some? <==> later >= now + 60_000
  {
  }
}
