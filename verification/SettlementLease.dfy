/**
 Runs in which no worker outlives its lease and the provider is truthful and
 well formed.  Crashes, thrown errors, failed transactions and late
 reconciliation are all still allowed.  One worker is in flight at a time, the
 recovery state is unambiguous at every moment, and the runtime verifier accepts
 exactly the moments at which the round's status column has caught up.
 */
module SettlementLease {
  import opened Support
  import opened Rounds
  import opened RoundInvariants
  import opened SettlementPlan
  import opened SettlementCustody
  import opened SettlementStore
  import opened SettlementProtocol
  import opened SettlementSafety
  import opened SettlementEffects

  /** Time never passes the expiry of a lease whose owner is still in flight. */
  ghost predicate NoOverrun(st: State, step: Step) {
    var row := st.store.settlement;
    step.Tick? && row.leaseOwner.Some? && row.leaseOwner.value in st.workers && row.leaseExpiresAt.Some?
    ==> step.to < row.leaseExpiresAt.value
  }

  /** A result that belongs to the request and carries the hash the verifier recomputes. */
  predicate Conforms(request: Planned, result: ProviderResult) {
    result.requestKey == request.requestKey && result.signature != "" && result.digest == DigestOf(request.requestHash, result.signature)
  }

  predicate NamedFailure(response: Response) {
    match response
    case Returned(_) => true
    case Ambiguous(code, _) => code != ""
    case DefinitelyNot(code) => code != ""
  }

  ghost predicate WellFormed(st: State, step: Step) {
    AtExecute(st, step) ==>
      && (step.effect.Some? ==> Conforms(st.workers[step.worker].row.planned, step.effect.value))
      && NamedFailure(step.response)
  }

  ghost predicate LeasedRun(st: State, steps: seq<Step>) {
    steps == [] || (
      var init, last := steps[..|steps| - 1], steps[|steps| - 1];
      && LeasedRun(st, init)
      && NoOverrun(Run(st, init), last) && Truthful(Run(st, init), last) && WellFormed(Run(st, init), last))
  }

  /** Every worker in flight owns the unexpired lease; so there is at most one. */
  ghost predicate LeaseHeld(st: State) {
    var row := st.store.settlement;
    forall w :: w in st.workers ==>
      row.leaseOwner == Some(w) && row.leaseExpiresAt.Some? && st.now < row.leaseExpiresAt.value && row.status != Settled
  }

  /** Rows of the three shapes only; recovery is on the first unfinalized operation, which the settlement's reason names. */
  ghost predicate Tidy(store: Store) {
    var row, operations := store.settlement, store.operations;
    var k := row.finalizedCount;
    && FinalizedPrefix(operations, k)
    && (forall j :: 0 <= j < |operations| ==>
          EvidenceAccepted(operations[j]) && (operations[j].status == Recovering ==> j == k && row.status == RecoveryNeeded))
    && (if row.status == RecoveryNeeded then
          && k < |operations| && operations[k].status == Recovering
          && row.reason == Some(Reason(k, operations[k].failureCode.value)) && store.columns.status == RecoveryNeeded
        else row.reason.None?)
  }

  /** The worker's last-read row is still the stored one, and what it is about to write fits it. */
  predicate PhaseTidy(phase: Phase, store: Store) {
    var k, operations := store.settlement.finalizedCount, store.operations;
    match phase
    case Reading(_) => true
    case Releasing => true
    case Reconciling(i, row) => i == k && i < |operations| && row == operations[i]
    case Executing(i, row) => i == k && i < |operations| && row == operations[i] && row.mode != ReconcileOnly
    case Finalizing(i, result, executed) =>
      && i == k && i < |operations| && Conforms(operations[i].planned, result)
      && (executed ==> operations[i].signature.None?)
    case Recording(i, code, mode, signature, attempted) =>
      && i == k && i < |operations| && code != "" && mode != NoRecovery
      && (if attempted then operations[i].mode != ReconcileOnly && operations[i].signature.None? && (mode == Retryable ==> signature.None?)
          else operations[i].mode == mode == ReconcileOnly && signature == operations[i].signature)
  }

  ghost predicate EffectsConform(effects: seq<Applied>, operations: seq<Operation>) {
    forall e :: 0 <= e < |effects| ==> Conforms(effects[e].request, effects[e].result) && Requested(effects[e].request, operations)
  }

  predicate Requested(request: Planned, operations: seq<Operation>) {
    exists j :: 0 <= j < |operations| && request == operations[j].planned
  }

  ghost predicate Disciplined(st: State) {
    && Safe(st) && LeaseHeld(st) && Tidy(st.store)
    && DistinctRequests(st.store.operations) && EffectsConform(st.effects, st.store.operations)
    && forall w :: w in st.workers ==> PhaseTidy(st.workers[w], st.store)
  }

  /** At most one worker is ever in flight. */
  lemma SoleWorker(st: State, a: nat, b: nat)
    requires LeaseHeld(st) && a in st.workers && b in st.workers
    ensures a == b
  {
  }

  // ---------------------------------------------------------------- transactions keep the rows tidy

  lemma FinalizeKeepsTidy(store: Store, i: nat, result: ProviderResult, executed: bool, now: int)
    requires Tidy(store) && i == store.settlement.finalizedCount < |store.operations| && store.settlement.status != Settled
    requires Conforms(store.operations[i].planned, result)
    requires FinalizeOperation(store, i, result, executed, now).Ok?
    ensures Tidy(FinalizeOperation(store, i, result, executed, now).value)
    ensures FinalizeOperation(store, i, result, executed, now).value.settlement.finalizedCount == i + 1
  {
    var operations := store.operations[i := FinalizedRow(store.operations[i], result, executed, now)];
    assert FinalizedPrefix(operations, i + 1);
    PrefixCount(operations, i + 1);
  }

  lemma RecordKeepsTidy(store: Store, i: nat, owner: nat, code: string, mode: RecoveryMode, signature: Option<string>, attempted: bool)
    requires Tidy(store) && store.settlement.leaseOwner == Some(owner) && store.settlement.status != Settled
    requires PhaseTidy(Recording(i, code, mode, signature, attempted), store)
    requires RecordRecovery(store, i, owner, code, mode, signature, attempted).Ok?
    ensures var store' := RecordRecovery(store, i, owner, code, mode, signature, attempted).value;
            && Tidy(store') && store'.settlement.status == store'.columns.status == RecoveryNeeded
            && store'.settlement.finalizedCount == i
  {
  }

  lemma CloseKeepsTidy(store: Store, owner: nat, now: int)
    requires Tidy(store) && StoreSafe(store) && Close(store, owner, now).Ok?
    ensures Tidy(Close(store, owner, now).value)
  {
    hide InventoryAfter;
    if store.settlement.status != Settled {
      assert forall k :: 0 <= k < |store.operations| ==> Complete(store.operations[k]);
      assert FinalizedPrefix(store.operations, |store.operations|);
    }
  }

  lemma LeaseOnlyKeepsTidy(store: Store, store': Store)
    requires Tidy(store) && store'.operations == store.operations && store'.columns == store.columns
    requires store'.settlement == store.settlement.(leaseOwner := store'.settlement.leaseOwner, leaseExpiresAt := store'.settlement.leaseExpiresAt,
                                                   version := store'.settlement.version)
    ensures Tidy(store')
    ensures forall phase :: PhaseTidy(phase, store) ==> PhaseTidy(phase, store')
  {
  }

  // ---------------------------------------------------------------- steps

  /** Same settlement lease, same rows: only the worker's own point changes. */
  lemma MoveKeepsDisciplined(st: State, worker: nat, phase: Phase, effects: seq<Applied>)
    requires Disciplined(st) && worker in st.workers
    requires PhaseSafe(phase, st.store) && PhaseTidy(phase, st.store) && EffectsConform(effects, st.store.operations)
    ensures Disciplined(MoveTo(st, worker, phase).(effects := effects))
  {
    hide StoreSafe, Tidy, EffectsConform, DistinctRequests, PhaseSafe, PhaseTidy;
  }

  lemma ConformingKnown(st: State, i: nat, request: Planned, result: ProviderResult)
    requires DistinctRequests(st.store.operations) && EffectsConform(st.effects, st.store.operations)
    requires i < |st.store.operations| && request == st.store.operations[i].planned && Known(st.effects, request, result)
    ensures Conforms(request, result)
  {
    var e :| 0 <= e < |st.effects| && st.effects[e].request.requestKey == request.requestKey && st.effects[e].result == result;
    var j :| 0 <= j < |st.store.operations| && st.effects[e].request == st.store.operations[j].planned;
    assert i == j;
  }

  lemma ReconcileKeepsDisciplined(st: State, step: Step)
    requires Disciplined(st) && Truthful(st, step) && AtReconcile(st, step)
    ensures Disciplined(Successor(st, step))
  {
    var phase := st.workers[step.worker];
    assert PhaseSafe(phase, st.store) && PhaseTidy(phase, st.store);
    if step.answer.Some? {
      ConformingKnown(st, phase.index, phase.row.planned, step.answer.value);
    }
    assert EvidenceAccepted(st.store.operations[phase.index]);
    var after := Successor(st, step);
    var next := after.workers[step.worker];
    assert PhaseTidy(next, st.store) && PhaseSafe(next, st.store);
    hide Safe, StoreSafe, PhaseSafe, PhaseTidy, Tidy, LeaseHeld, EffectsConform, DistinctRequests, Disciplined, Known;
    assert after == MoveTo(st, step.worker, next).(effects := st.effects);
    DisciplinedParts(st);
    MoveKeepsDisciplined(st, step.worker, next, st.effects);
  }

  lemma DisciplinedParts(st: State)
    requires Disciplined(st)
    ensures Safe(st) && LeaseHeld(st) && Tidy(st.store) && DistinctRequests(st.store.operations)
    ensures EffectsConform(st.effects, st.store.operations) && StoreSafe(st.store)
  {
  }

  lemma ExecuteKeepsDisciplined(st: State, step: Step)
    requires Disciplined(st) && Truthful(st, step) && WellFormed(st, step) && AtExecute(st, step)
    ensures Disciplined(Successor(st, step))
  {
    var phase := st.workers[step.worker];
    assert PhaseSafe(phase, st.store) && PhaseTidy(phase, st.store);
    assert EvidenceAccepted(st.store.operations[phase.index]);
    if step.response.Returned? && step.effect.None? {
      ConformingKnown(st, phase.index, phase.row.planned, step.response.result);
    }
    var after := Successor(st, step);
    var next := after.workers[step.worker];
    assert PhaseTidy(next, st.store) && PhaseSafe(next, st.store);
    ExecuteConforms(st, step);
    hide Safe, StoreSafe, PhaseSafe, PhaseTidy, Tidy, LeaseHeld, EffectsConform, DistinctRequests, Disciplined, Known;
    assert after == MoveTo(st, step.worker, next).(effects := after.effects);
    MoveKeepsDisciplined(st, step.worker, next, after.effects);
  }

  lemma ExecuteConforms(st: State, step: Step)
    requires Disciplined(st) && WellFormed(st, step) && AtExecute(st, step)
    ensures EffectsConform(Successor(st, step).effects, st.store.operations)
  {
    var phase := st.workers[step.worker];
    assert PhaseTidy(phase, st.store);
    assert phase.row.planned == st.store.operations[phase.index].planned;
  }

  lemma ReadKeepsDisciplined(st: State, step: Step)
    requires Disciplined(st) && (step.Read? || step.ReconcileThrows? || step.CommitFails?) && step.worker in st.workers
    ensures Disciplined(Successor(st, step))
  {
    var phase := st.workers[step.worker];
    assert PhaseSafe(phase, st.store);
    var after := Successor(st, step);
    if after != st {
      var next := after.workers[step.worker];
      assert PhaseTidy(next, st.store) && PhaseSafe(next, st.store);
      hide Safe, StoreSafe, PhaseSafe, PhaseTidy, Tidy, LeaseHeld, EffectsConform, DistinctRequests, Disciplined;
      assert after == MoveTo(st, step.worker, next).(effects := st.effects);
      DisciplinedParts(st);
      MoveKeepsDisciplined(st, step.worker, next, st.effects);
    }
  }

  /** A worker that ends leaves nobody in flight, so only the rows have to be tidy. */
  lemma FinishKeepsDisciplined(st: State, after: State, worker: nat)
    requires Disciplined(st) && worker in st.workers && Safe(after)
    requires after.workers == st.workers - {worker} && after.effects == st.effects
    requires Tidy(after.store) && Progress(st.store, after.store)
    ensures Disciplined(after) && after.workers == map[]
  {
    hide StoreSafe, Tidy;
    assert forall w :: w in st.workers ==> w == worker;
    assert after.workers == map[];
    ProgressKeepsRequests(st.store, after.store, st.effects);
  }

  lemma ProgressKeepsRequests(store: Store, store': Store, effects: seq<Applied>)
    requires Progress(store, store') && DistinctRequests(store.operations) && EffectsConform(effects, store.operations)
    ensures DistinctRequests(store'.operations) && EffectsConform(effects, store'.operations)
  {
    forall e | 0 <= e < |effects| ensures Requested(effects[e].request, store'.operations) {
      var j :| 0 <= j < |store.operations| && effects[e].request == store.operations[j].planned;
      assert store'.operations[j].planned == store.operations[j].planned;
    }
  }

  /** The sole worker goes on reading after a transaction under its lease. */
  lemma GoingOnKeepsDisciplined(st: State, after: State, worker: nat)
    requires Disciplined(st) && worker in st.workers && Safe(after)
    requires after.workers.Keys == st.workers.Keys && after.workers[worker].Reading? && after.effects == st.effects && after.now == st.now
    requires Tidy(after.store) && Progress(st.store, after.store)
    requires after.store.settlement.leaseOwner == st.store.settlement.leaseOwner && after.store.settlement.status != Settled
    requires after.store.settlement.leaseExpiresAt == st.store.settlement.leaseExpiresAt
    ensures Disciplined(after)
  {
    hide StoreSafe, Tidy;
    assert forall w :: w in st.workers ==> w == worker;
    ProgressKeepsRequests(st.store, after.store, st.effects);
  }

  lemma FinalizeStepKeepsDisciplined(st: State, step: Step)
    requires Disciplined(st) && step.Commit? && step.worker in st.workers && st.workers[step.worker].Finalizing?
    ensures Disciplined(Successor(st, step))
  {
    var worker, phase := step.worker, st.workers[step.worker];
    assert PhaseSafe(phase, st.store) && PhaseTidy(phase, st.store);
    var after := Successor(st, step);
    if FinalizeOperation(st.store, phase.index, phase.result, phase.executed, st.now).Ok? {
      FinalizeKeepsTidy(st.store, phase.index, phase.result, phase.executed, st.now);
      StepKeepsSafe(st, step);
      StepKeepsStore(st, step);
      hide Safe, StoreSafe, Tidy, Progress, CountFinalized, FinalizedRow, EffectsConform, DistinctRequests;
      GoingOnKeepsDisciplined(st, after, worker);
    } else {
      hide StoreSafe, Tidy, EffectsConform, DistinctRequests, FinalizeOperation;
      assert after == MoveTo(st, worker, Releasing).(effects := st.effects);
      MoveKeepsDisciplined(st, worker, Releasing, st.effects);
    }
  }

  /**
   A disciplined worker's recovery record is rolled back exactly when it reports a
   signature that another row holds; no other rule of the database can refuse it.
   */
  lemma RecordingIsAccepted(st: State, w: nat)
    requires Disciplined(st) && w in st.workers && st.workers[w].Recording?
    ensures var phase := st.workers[w];
            && phase.index < |st.store.operations|
            && var recorded := RecordRecovery(st.store, phase.index, w, phase.code, phase.mode, phase.signature, phase.attempted);
            && (recorded.Ok? <==> RecoveryFree(st.store, phase.index, phase.signature))
            && (recorded.Err? ==> recorded.error == SignatureTaken)
            && (recorded.Err? ==> phase.attempted && phase.mode == ReconcileOnly)
  {
    var phase := st.workers[w];
    assert PhaseTidy(phase, st.store);
    var op := st.store.operations[phase.index];
    assert EvidenceAccepted(op);
    if !phase.attempted && op.signature.Some? {
      assert SignatureFree(st.store, phase.index, op.signature.value);
    }
    hide SignatureFree, UniqueSignatures;
  }

  /** An executed result is likewise finalized exactly when no other row holds its signature. */
  lemma FinalizingIsAccepted(st: State, w: nat)
    requires Disciplined(st) && w in st.workers && st.workers[w].Finalizing? && st.workers[w].executed
    ensures var phase := st.workers[w];
            && phase.index < |st.store.operations|
            && var finalized := FinalizeOperation(st.store, phase.index, phase.result, true, st.now);
            && (finalized.Ok? <==> SignatureFree(st.store, phase.index, phase.result.signature))
            && (finalized.Err? ==> finalized.error == SignatureTaken)
  {
    assert PhaseTidy(st.workers[w], st.store);
    hide SignatureFree, UniqueSignatures;
  }

  /** A provider that gives each effect a signature of its own is never refused. */
  lemma OwnSignatureIsFree(st: State, i: nat, signature: string)
    requires Disciplined(st) && Placed(st) && i == st.store.settlement.finalizedCount < |st.store.operations|
    requires signature !in st.store.foreign && forall j :: 0 <= j < i ==> signature != st.effects[j].result.signature
    ensures SignatureFree(st.store, i, signature)
  {
    forall j | 0 <= j < |st.store.operations| && j != i ensures st.store.operations[j].signature != Some(signature) {
      assert EvidenceAccepted(st.store.operations[j]);
    }
  }

  lemma RecordStepKeepsDisciplined(st: State, step: Step)
    requires Disciplined(st) && step.Commit? && step.worker in st.workers && st.workers[step.worker].Recording?
    ensures Disciplined(Successor(st, step))
    ensures step.worker !in Successor(st, step).workers ==>
              Successor(st, step).store.settlement.status == Successor(st, step).store.columns.status == RecoveryNeeded
  {
    hide RecordRecovery, StoreSafe, Tidy, EffectsConform, DistinctRequests, RecoveryFree, Progress;
    var worker, phase := step.worker, st.workers[step.worker];
    var after := Successor(st, step);
    assert PhaseTidy(phase, st.store);
    if RecordRecovery(st.store, phase.index, worker, phase.code, phase.mode, phase.signature, phase.attempted).Ok? {
      RecordKeepsTidy(st.store, phase.index, worker, phase.code, phase.mode, phase.signature, phase.attempted);
      StepKeepsSafe(st, step);
      StepKeepsStore(st, step);
      FinishKeepsDisciplined(st, after, worker);
    } else {
      assert after == MoveTo(st, worker, Releasing).(effects := st.effects);
      MoveKeepsDisciplined(st, worker, Releasing, st.effects);
    }
  }

  lemma CloseStepKeepsDisciplined(st: State, step: Step)
    requires Disciplined(st) && step.Commit? && step.worker in st.workers && st.workers[step.worker].Reading?
    ensures Disciplined(Successor(st, step))
    ensures step.worker !in Successor(st, step).workers ==>
              Successor(st, step).store.settlement.status == Successor(st, step).store.columns.status == Settled
  {
    var worker, phase := step.worker, st.workers[step.worker];
    var after := Successor(st, step);
    if phase.index == |st.store.operations| {
      if Close(st.store, worker, st.now).Ok? {
        CloseKeepsSafe(st.store, worker, st.now);
        CloseKeepsTidy(st.store, worker, st.now);
        StepKeepsSafe(st, step);
        hide Safe, StoreSafe, Tidy, Progress, Close, EffectsConform;
        assert StoreSafe(after.store);
        assert Finality(after.store) by { SafeFinality(after.store); }
        FinishKeepsDisciplined(st, after, worker);
      } else {
        hide StoreSafe, Tidy, EffectsConform, DistinctRequests, Close;
        assert after == MoveTo(st, worker, Releasing).(effects := st.effects);
        MoveKeepsDisciplined(st, worker, Releasing, st.effects);
      }
    }
  }

  lemma SafeFinality(store: Store)
    requires StoreSafe(store)
    ensures Finality(store)
  {
  }

  lemma ClaimKeepsDisciplined(st: State)
    requires Disciplined(st)
    ensures Disciplined(ClaimStep(st))
  {
    if ClaimLease(st.store, st.issued, st.now).Some? {
      assert forall w :: w !in st.workers;
      StepKeepsSafe(st, Claim);
      var after := ClaimStep(st);
      LeaseOnlyKeepsTidy(st.store, after.store);
      hide Safe, StoreSafe, Tidy;
    }
  }

  lemma EndKeepsDisciplined(st: State, step: Step)
    requires Disciplined(st) && (step.Release? || step.ReleaseFails? || step.Crash?) && step.worker in st.workers
    ensures Disciplined(Successor(st, step))
  {
    var worker := step.worker;
    var after := Successor(st, step);
    if after != st {
      StepKeepsSafe(st, step);
      StepKeepsStore(st, step);
      LeaseOnlyKeepsTidy(st.store, after.store);
      hide Safe, StoreSafe, Tidy, Progress, ReleaseLease;
      FinishKeepsDisciplined(st, after, worker);
    }
  }

  lemma TickKeepsDisciplined(st: State, step: Step)
    requires Disciplined(st) && step.Tick? && NoOverrun(st, step)
    ensures Disciplined(Successor(st, step))
  {
    hide StoreSafe, Tidy, EffectsConform, DistinctRequests, PhaseTidy, PhaseSafe;
  }

  lemma ElsewhereKeepsDisciplined(st: State, signature: string)
    requires Disciplined(st)
    ensures Disciplined(ElsewhereStep(st, signature))
  {
    var after := ElsewhereStep(st, signature);
    if after != st {
      StepKeepsSafe(st, Elsewhere(signature));
      LeaseOnlyKeepsTidy(st.store, after.store);
      hide Safe, StoreSafe, Tidy, PhaseTidy, SignatureFree;
    }
  }

  lemma {:induction false} StepKeepsDisciplined(st: State, step: Step)
    requires Disciplined(st) && NoOverrun(st, step) && Truthful(st, step) && WellFormed(st, step)
    ensures Disciplined(Successor(st, step))
  {
    hide Disciplined, NoOverrun, Truthful, WellFormed;
    match step
    case Tick(_) => TickKeepsDisciplined(st, step);
    case Elsewhere(signature) => ElsewhereKeepsDisciplined(st, signature);
    case Claim => ClaimKeepsDisciplined(st);
    case _ =>
      if step.worker in st.workers {
        var phase := st.workers[step.worker];
        match step
        case Reconcile(_, _) => if phase.Reconciling? { ReconcileKeepsDisciplined(st, step); }
        case Execute(_, _, _) => if phase.Executing? { ExecuteKeepsDisciplined(st, step); }
        case Commit(_) =>
          if phase.Finalizing? { FinalizeStepKeepsDisciplined(st, step); }
          else if phase.Recording? { RecordStepKeepsDisciplined(st, step); }
          else if phase.Reading? { CloseStepKeepsDisciplined(st, step); }
        case Read(_) => ReadKeepsDisciplined(st, step);
        case ReconcileThrows(_) => ReadKeepsDisciplined(st, step);
        case CommitFails(_) => ReadKeepsDisciplined(st, step);
        case _ => EndKeepsDisciplined(st, step);
      }
  }

  lemma {:induction false} LeasedRunIsDisciplined(st: State, steps: seq<Step>)
    requires Disciplined(st) && LeasedRun(st, steps)
    ensures Disciplined(Run(st, steps))
  {
    if steps != [] {
      var init := steps[..|steps| - 1];
      LeasedRunIsDisciplined(st, init);
      hide Disciplined;
      StepKeepsDisciplined(Run(st, init), steps[|steps| - 1]);
    }
  }
}
