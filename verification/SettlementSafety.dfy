/**
 What holds in every interleaving: stale workers, overrun leases, crashes and
 arbitrary provider answers included.
 */
module SettlementSafety {
  import opened Support
  import opened Rounds
  import opened SettlementPlan
  import opened SettlementStore
  import opened SettlementProtocol

  predicate RowShape(op: Operation) {
    if op.status == Finalized then Complete(op) && op.mode == NoRecovery && op.failureCode.None? && op.evidence.Some?
    else op.digest.None? && op.evidence.None? && op.finalizedAt.None?
  }

  /** The finalized operations are the first `finalizedCount` of the plan. */
  ghost predicate FinalizedPrefix(operations: seq<Operation>, count: nat) {
    && count <= |operations|
    && forall i :: 0 <= i < |operations| ==> (operations[i].status == Finalized <==> i < count)
  }

  /** Settlement and round are settled together, with one receipt that recomputes from the rows. */
  predicate Finality(store: Store) {
    && store.facts.round.transitions != []
    && FinalityAccepted(store)
    && (store.settlement.status == Settled <==> store.columns.status == Settled)
    && store.settlement.status != NotRequired && store.columns.status != NotRequired
    && (store.settlement.status == Settled ==> store.settlement.finalizedCount == |store.operations|)
  }

  /** Every stored signature is held by one row of the whole operation table. */
  ghost predicate UniqueSignatures(store: Store) {
    forall i :: 0 <= i < |store.operations| && store.operations[i].signature.Some? ==> SignatureFree(store, i, store.operations[i].signature.value)
  }

  ghost predicate StoreSafe(store: Store) {
    && |store.operations| == store.settlement.bindings.expectedCount
    && FinalizedPrefix(store.operations, store.settlement.finalizedCount)
    && (forall i :: 0 <= i < |store.operations| ==> RowShape(store.operations[i]))
    && Finality(store)
    && UniqueSignatures(store)
  }

  /** A worker only moves on past finalized operations, and works on a request of the plan. */
  predicate PhaseSafe(phase: Phase, store: Store) {
    match phase
    case Reading(i) => i <= store.settlement.finalizedCount
    case Reconciling(i, row) => RequestSafe(i, row, store)
    case Executing(i, row) => RequestSafe(i, row, store)
    case Finalizing(i, _, _) => i < |store.operations| && i <= store.settlement.finalizedCount
    case Recording(i, _, _, _, _) => i < |store.operations| && i <= store.settlement.finalizedCount
    case Releasing => true
  }

  predicate RequestSafe(i: nat, row: Operation, store: Store) {
    i < |store.operations| && i <= store.settlement.finalizedCount && row.planned == store.operations[i].planned
  }

  ghost predicate Safe(st: State) {
    && StoreSafe(st.store)
    && (forall w :: w in st.workers ==> w < st.issued && PhaseSafe(st.workers[w], st.store))
  }

  /** Later rows keep every immutable column, every finalized row and a settled settlement. */
  ghost predicate Progress(store: Store, store': Store) {
    && store'.facts == store.facts
    && store'.settlement.request == store.settlement.request && store'.settlement.bindings == store.settlement.bindings
    && |store'.operations| == |store.operations|
    && store.settlement.finalizedCount <= store'.settlement.finalizedCount
    && (forall i :: 0 <= i < |store.operations| ==>
          && store'.operations[i].planned == store.operations[i].planned
          && (store.operations[i].status == Finalized ==> store'.operations[i] == store.operations[i]))
    && store.foreign <= store'.foreign
    && (store.settlement.status == Settled ==> store' == store.(foreign := store'.foreign))
  }

  // ---------------------------------------------------------------- transactions

  lemma {:induction false} PrefixCount(operations: seq<Operation>, count: nat)
    requires FinalizedPrefix(operations, count)
    ensures CountFinalized(operations) == count
  {
    if operations != [] {
      var n := |operations| - 1;
      PrefixCount(operations[..n], if count <= n then count else n);
    }
  }

  lemma FinalizeKeepsSafe(store: Store, i: nat, result: ProviderResult, executed: bool, now: int)
    requires StoreSafe(store) && i < |store.operations| && i <= store.settlement.finalizedCount
    requires FinalizeOperation(store, i, result, executed, now).Ok?
    ensures var store' := FinalizeOperation(store, i, result, executed, now).value;
            StoreSafe(store') && Progress(store, store') && i + 1 <= store'.settlement.finalizedCount
  {
    var op := store.operations[i];
    if op.status != Finalized {
      var operations := store.operations[i := FinalizedRow(op, result, executed, now)];
      assert FinalizedPrefix(operations, i + 1);
      PrefixCount(operations, i + 1);
      FreeKeepsUnique(store, i, operations[i]);
    }
  }

  lemma RecordKeepsSafe(store: Store, i: nat, owner: nat, code: string, mode: RecoveryMode, signature: Option<string>, attempted: bool)
    requires StoreSafe(store) && i < |store.operations|
    requires RecordRecovery(store, i, owner, code, mode, signature, attempted).Ok?
    ensures var store' := RecordRecovery(store, i, owner, code, mode, signature, attempted).value;
            StoreSafe(store') && Progress(store, store') && store'.columns.status == RecoveryNeeded
  {
    hide FinalizedPrefix, RowShape, UniqueSignatures, SignatureFree, ReceiptOf, CountFinalized;
    var op := store.operations[i];
    var op' := if op.status == Finalized then op else RecoveringRow(op, code, mode, signature, attempted);
    var after := store.(operations := store.operations[i := op']);
    RecoveringKeepsRows(store, i, op');
    SameSignatures(after, RecordRecovery(store, i, owner, code, mode, signature, attempted).value);
  }

  /** Rows and signatures after an unfinalized row goes into recovery. */
  lemma RecoveringKeepsRows(store: Store, i: nat, op': Operation)
    requires StoreSafe(store) && i < |store.operations|
    requires var op := store.operations[i];
             op' == op || (op.status != Finalized && op'.status != Finalized && op' == op.(
               status := op'.status, mode := op'.mode, failureCode := op'.failureCode, signature := op'.signature, submissions := op'.submissions))
    requires op'.signature == store.operations[i].signature || (op'.signature.Some? && SignatureFree(store, i, op'.signature.value))
    ensures var operations := store.operations[i := op'];
            && FinalizedPrefix(operations, store.settlement.finalizedCount) && (forall k :: 0 <= k < |operations| ==> RowShape(operations[k]))
            && UniqueSignatures(store.(operations := operations))
  {
    hide Complete, SignatureFree, Finality;
    FreeKeepsUnique(store, i, op');
  }

  lemma SameSignatures(store: Store, store': Store)
    requires UniqueSignatures(store) && store'.operations == store.operations && store'.foreign == store.foreign
    ensures UniqueSignatures(store')
  {
    forall i | 0 <= i < |store'.operations| && store'.operations[i].signature.Some?
      ensures SignatureFree(store', i, store'.operations[i].signature.value)
    {
      assert SignatureFree(store, i, store.operations[i].signature.value);
    }
  }

  lemma CloseKeepsSafe(store: Store, owner: nat, now: int)
    requires StoreSafe(store) && Close(store, owner, now).Ok?
    ensures StoreSafe(Close(store, owner, now).value) && Progress(store, Close(store, owner, now).value)
    ensures Close(store, owner, now).value.settlement.status == Settled
  {
    hide InventoryAfter;
    if store.settlement.status != Settled {
      assert forall k :: 0 <= k < |store.operations| ==> Complete(store.operations[k]);
      assert FinalizedPrefix(store.operations, |store.operations|);
      PrefixCount(store.operations, |store.operations|);
    }
  }

  lemma ElsewhereKeepsSafe(st: State, signature: string)
    requires StoreSafe(st.store)
    ensures StoreSafe(ElsewhereStep(st, signature).store) && Progress(st.store, ElsewhereStep(st, signature).store)
  {
    var after := ElsewhereStep(st, signature).store;
    hide RowShape, Complete;
    forall i | 0 <= i < |after.operations| && after.operations[i].signature.Some?
      ensures SignatureFree(after, i, after.operations[i].signature.value)
    {
      assert SignatureFree(st.store, i, st.store.operations[i].signature.value);
    }
  }

  /** A signature written to row `i` after the index admitted it keeps the signatures unique. */
  lemma FreeKeepsUnique(store: Store, i: nat, op: Operation)
    requires UniqueSignatures(store) && i < |store.operations|
    requires op.signature.Some? ==> SignatureFree(store, i, op.signature.value)
    ensures UniqueSignatures(store.(operations := store.operations[i := op]))
  {
  }

  lemma ClaimKeepsSafe(store: Store, owner: nat, now: int)
    requires StoreSafe(store) && ClaimLease(store, owner, now).Some?
    ensures StoreSafe(ClaimLease(store, owner, now).value) && Progress(store, ClaimLease(store, owner, now).value)
  {
  }

  lemma ReleaseKeepsSafe(store: Store, owner: nat)
    requires StoreSafe(store)
    ensures StoreSafe(ReleaseLease(store, owner)) && Progress(store, ReleaseLease(store, owner))
  {
  }

  lemma ProgressKeepsPhase(store: Store, store': Store, phase: Phase)
    requires Progress(store, store') && PhaseSafe(phase, store)
    ensures PhaseSafe(phase, store')
  {
  }

  lemma ProgressTransitive(a: Store, b: Store, c: Store)
    requires Progress(a, b) && Progress(b, c)
    ensures Progress(a, c)
  {
    forall i | 0 <= i < |a.operations| && a.operations[i].status == Finalized ensures c.operations[i] == a.operations[i] {
      assert b.operations[i] == a.operations[i];
    }
  }

  // ---------------------------------------------------------------- steps

  /** The stored rows after a step, whichever transaction it ran. */
  lemma StepKeepsStore(st: State, step: Step)
    requires Safe(st)
    ensures StoreSafe(Successor(st, step).store) && Progress(st.store, Successor(st, step).store)
  {
    hide StoreSafe, Progress, FinalizeOperation, RecordRecovery, Close, ClaimLease, ReleaseLease;
    ProgressReflexive(st.store);
    if step.Claim? {
      if ClaimLease(st.store, st.issued, st.now).Some? {
        ClaimKeepsSafe(st.store, st.issued, st.now);
      }
    } else if step.Elsewhere? {
      ElsewhereKeepsSafe(st, step.signature);
    } else if !step.Tick? && step.worker in st.workers {
      var worker, phase := step.worker, st.workers[step.worker];
      assert PhaseSafe(phase, st.store);
      if step.Release? {
        ReleaseKeepsSafe(st.store, worker);
      } else if step.Commit? {
        CommitKeepsStore(st, worker, phase);
      }
    }
  }

  lemma ProgressReflexive(store: Store)
    ensures Progress(store, store)
  {
  }

  lemma CommitKeepsStore(st: State, worker: nat, phase: Phase)
    requires StoreSafe(st.store) && PhaseSafe(phase, st.store)
    ensures StoreSafe(CommitStep(st, worker, phase).store) && Progress(st.store, CommitStep(st, worker, phase).store)
  {
    hide StoreSafe, Progress, FinalizeOperation, RecordRecovery, Close;
    ProgressReflexive(st.store);
    match phase
    case Finalizing(i, result, executed) =>
      if FinalizeOperation(st.store, i, result, executed, st.now).Ok? {
        FinalizeKeepsSafe(st.store, i, result, executed, st.now);
      }
    case Recording(i, code, mode, signature, attempted) =>
      if RecordRecovery(st.store, i, worker, code, mode, signature, attempted).Ok? {
        RecordKeepsSafe(st.store, i, worker, code, mode, signature, attempted);
      }
    case Reading(i) =>
      if Close(st.store, worker, st.now).Ok? {
        CloseKeepsSafe(st.store, worker, st.now);
      }
    case _ =>
  }

  /** A worker that reads or calls the provider ends at a safe point. */
  lemma MoveKeepsPhase(st: State, step: Step, worker: nat, phase: Phase)
    requires StoreSafe(st.store) && PhaseSafe(phase, st.store) && !step.Commit?
    requires worker in st.workers && st.workers[worker] == phase && worker in WorkerStep(st, step, worker, phase).workers
    ensures PhaseSafe(WorkerStep(st, step, worker, phase).workers[worker], st.store)
  {
    hide Finality, RowShape, ReleaseLease;
  }

  /** So does one that runs a transaction. */
  lemma CommitKeepsPhase(st: State, worker: nat, phase: Phase)
    requires StoreSafe(st.store) && PhaseSafe(phase, st.store)
    requires worker in st.workers && st.workers[worker] == phase && worker in CommitStep(st, worker, phase).workers
    ensures PhaseSafe(CommitStep(st, worker, phase).workers[worker], CommitStep(st, worker, phase).store)
  {
    hide StoreSafe, Progress, FinalizeOperation, RecordRecovery, Close;
    if phase.Finalizing? && FinalizeOperation(st.store, phase.index, phase.result, phase.executed, st.now).Ok? {
      FinalizeKeepsSafe(st.store, phase.index, phase.result, phase.executed, st.now);
    }
  }

  lemma StepKeepsWorker(st: State, step: Step, w: nat)
    requires Safe(st) && w in Successor(st, step).workers
    ensures w < Successor(st, step).issued && PhaseSafe(Successor(st, step).workers[w], Successor(st, step).store)
  {
    var after := Successor(st, step);
    StepKeepsStore(st, step);
    hide StoreSafe, Progress, FinalizeOperation, RecordRecovery, Close, ClaimLease, ReleaseLease;
    if step.Claim? && w == st.issued {
      assert PhaseSafe(Reading(0), after.store);
    } else if step.Claim? || step.Tick? || step.Elsewhere? || w != step.worker {
      ProgressKeepsPhase(st.store, after.store, st.workers[w]);
    } else if step.Commit? {
      CommitKeepsPhase(st, w, st.workers[w]);
    } else {
      MoveKeepsPhase(st, step, w, st.workers[w]);
      ProgressKeepsPhase(st.store, after.store, after.workers[w]);
    }
  }

  lemma StepKeepsSafe(st: State, step: Step)
    requires Safe(st)
    ensures Safe(Successor(st, step))
  {
    StepKeepsStore(st, step);
    forall w | w in Successor(st, step).workers
      ensures w < Successor(st, step).issued && PhaseSafe(Successor(st, step).workers[w], Successor(st, step).store)
    {
      StepKeepsWorker(st, step, w);
    }
  }

  lemma StartIsSafe(facts: RoundFacts, policy: SettlementPolicy, now: int)
    requires Settleable(facts, policy)
    ensures Safe(Start(facts, policy, now))
  {
    hide PromisesVerified, ExpectedPlan;
  }

  /** Prefix safety: in every interleaving the finalized operations are a prefix of the plan and are counted exactly. */
  lemma {:induction false} EveryInterleavingIsSafe(st: State, steps: seq<Step>)
    requires Safe(st)
    ensures Safe(Run(st, steps))
  {
    if steps != [] {
      EveryInterleavingIsSafe(st, steps[..|steps| - 1]);
      StepKeepsSafe(Run(st, steps[..|steps| - 1]), steps[|steps| - 1]);
    }
  }

  /** FINALIZED rows and SETTLED settlements are final, and no plan column ever changes. */
  lemma {:induction false} FinalityIsForever(st: State, steps: seq<Step>)
    requires Safe(st)
    ensures Progress(st.store, Run(st, steps).store)
  {
    hide Progress, Safe;
    ProgressReflexive(st.store);
    if steps != [] {
      var init := steps[..|steps| - 1];
      FinalityIsForever(st, init);
      EveryInterleavingIsSafe(st, init);
      StepKeepsStore(Run(st, init), steps[|steps| - 1]);
      ProgressTransitive(st.store, Run(st, init).store, Run(st, steps).store);
    }
  }
}
